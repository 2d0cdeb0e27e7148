/** What the bridge guarantees over every run. */
module BridgeLaws {
  import opened Bytes
  import opened Bridge
  import opened BridgeInvariant
  import opened BridgeSaves
  import opened BridgePairing
  import opened BridgeOrder

  lemma {:induction false} EveryRun(actions: seq<Action>)
    requires Possible(actions)
    ensures Sane(Run(actions)) && ActiveOk(Run(actions)) && SavesOk(Run(actions)) && OrderOk(Run(actions))
  {
    if actions != [] {
      var before, a := actions[..|actions| - 1], actions[|actions| - 1];
      EveryRun(before);
      StepSane(Run(before), a);
      StepActive(Run(before), a);
      StepSaves(Run(before), a);
      StepOrder(Run(before), a);
    }
  }

  lemma {:induction false} EveryPairedRun(actions: seq<Action>)
    requires Possible(actions) && AllPaired(actions)
    ensures PairedOk(Run(actions))
  {
    if actions != [] {
      var before, a := actions[..|actions| - 1], actions[|actions| - 1];
      EveryRun(before);
      EveryPairedRun(before);
      StepPaired(Run(before), a);
    }
  }

  // ---------------------------------------------------------------- the rows of one message

  function DmRows(rows: seq<Row>, t: nat): seq<Row> {
    if rows == [] then []
    else
      var n := |rows| - 1;
      DmRows(rows[..n], t)
      + if (rows[n].cause.DmSent? || rows[n].cause.DmEvent?) && rows[n].cause.tag == t then [rows[n]] else []
  }

  function ChatRows(rows: seq<Row>, t: nat): seq<Row> {
    if rows == [] then []
    else
      var n := |rows| - 1;
      ChatRows(rows[..n], t) + if rows[n].cause.ChatEvent? && rows[n].cause.tag == t then [rows[n]] else []
  }

  lemma {:induction false} ChatRowsFrom(rows: seq<Row>, t: nat, r: Row)
    requires r in ChatRows(rows, t)
    ensures r in rows && r.cause.ChatEvent? && r.cause.tag == t
  {
    var n := |rows| - 1;
    if r in ChatRows(rows[..n], t) { ChatRowsFrom(rows[..n], t, r); }
  }

  lemma {:induction false} DmRowsAre(w: World, rows: seq<Row>, t: nat)
    requires Sane(w) && t < |w.deliveries| && forall k :: 0 <= k < |rows| ==> RowKnown(w, rows[k])
    ensures |DmRows(rows, t)| == |RowsOf(rows, DmSent(t))| + |RowsOf(rows, Receipt(w, t))|
    ensures RowsOf(rows, Receipt(w, t)) == [] ==> DmRows(rows, t) == RowsOf(rows, DmSent(t))
    ensures RowsOf(rows, DmSent(t)) == [] ==> DmRows(rows, t) == RowsOf(rows, Receipt(w, t))
  {
    if rows != [] {
      var r := rows[|rows| - 1];
      DmRowsAre(w, rows[..|rows| - 1], t);
      assert RowKnown(w, r);
      SeenIsOk(w, r.writer, r.cause);
    }
  }

  lemma {:induction false} ChatRowsAre(w: World, rows: seq<Row>, t: nat)
    requires Sane(w) && t < |w.broadcasts| && forall k :: 0 <= k < |rows| ==> RowKnown(w, rows[k])
    ensures ChatRows(rows, t) == RowsOf(rows, Echo(w, t))
  {
    if rows != [] {
      var r := rows[|rows| - 1];
      ChatRowsAre(w, rows[..|rows| - 1], t);
      assert RowKnown(w, r);
      SeenIsOk(w, r.writer, r.cause);
    }
  }

  // ---------------------------------------------------------------- direct messages

  /** Some step of the run has the recipient's session handle DM t while no session of the
      sender's name is counted: the guard of the save in pump_core_to_ws. */
  predicate AloneAt(actions: seq<Action>, t: nat) {
    actions != [] &&
    var before, a := actions[..|actions| - 1], actions[|actions| - 1];
    AloneAt(before, t) || TakesAlone(Run(before), a, t)
  }

  predicate TakesAlone(w: World, a: Action, t: nat) {
    && a.Handle? && Enabled(w, a) && t < |w.deliveries|
    && w.sessions[a.i].fromCore[0] == Receipt(w, t)
    && NobodyCounted(w, w.deliveries[t].sender)
  }

  lemma DmHandled(w: World, i: nat)
    requires Sane(w) && Enabled(w, Handle(i)) && w.sessions[i].fromCore[0].DmEvent?
    ensures var e := w.sessions[i].fromCore[0];
            && e.tag < |w.deliveries| && w.deliveries[e.tag].to == i
            && Handled(w, i).rows ==
               if ActiveCount(w.active, e.sender) == 0 then w.rows + [RecipientRow(w, e.tag)] else w.rows
  {
    HeadIsNew(w, i);
  }

  /** The recipient's session saves a DM exactly when no session of the sender's name runs
      at that moment. */
  lemma RecipientDecides(actions: seq<Action>, i: nat)
    requires Possible(actions)
    requires Enabled(Run(actions), Handle(i)) && Run(actions).sessions[i].fromCore[0].DmEvent?
    ensures var w, e := Run(actions), Run(actions).sessions[i].fromCore[0];
            && e.tag < |w.deliveries| && w.deliveries[e.tag].to == i
            && Handled(w, i).rows == if NobodyCounted(w, e.sender) then w.rows + [RecipientRow(w, e.tag)] else w.rows
  {
    EveryRun(actions);
    NobodyIsCounted(Run(actions), Run(actions).sessions[i].fromCore[0].sender);
    DmHandled(Run(actions), i);
  }

  /** No session of that name is running. */
  predicate NobodyCounted(w: World, user: Bytes) {
    forall j :: 0 <= j < |w.sessions| && Counted(w.sessions[j]) ==> w.sessions[j].user != user
  }

  lemma {:induction false} AloneIsDelivered(actions: seq<Action>, t: nat)
    requires Possible(actions) && AloneAt(actions, t)
    ensures t < |Run(actions).deliveries|
  {
    var before, a := actions[..|actions| - 1], actions[|actions| - 1];
    EveryRun(before);
    StepSane(Run(before), a);
    if AloneAt(before, t) { AloneIsDelivered(before, t); }
  }

  /** One step: the receipt's rows are as they were unless the step takes it alone. */
  lemma ReceiptStep(w: World, a: Action, t: nat)
    requires Sane(w) && ActiveOk(w) && SavesOk(w) && Enabled(w, a) && t < |w.deliveries|
    ensures t < |Step(w, a).deliveries| && Receipt(Step(w, a), t) == Receipt(w, t)
    ensures DeliveryOk(w, w.deliveries[t]) && DeliveryOk(Step(w, a), Step(w, a).deliveries[t])
    ensures RecipientRow(Step(w, a), t) == RecipientRow(w, t)
    ensures RowsOf(Step(w, a).rows, Receipt(w, t)) ==
            RowsOf(w.rows, Receipt(w, t)) + if TakesAlone(w, a, t) then [RecipientRow(w, t)] else []
    ensures TakesAlone(w, a, t) ==> RowsOf(w.rows, Receipt(w, t)) == []
  {
    var v := Step(w, a);
    StepSane(w, a);
    assert DeliveryOk(w, w.deliveries[t]) && DeliveryOk(v, v.deliveries[t]);
    assert SameSession(w.sessions[w.deliveries[t].to], v.sessions[w.deliveries[t].to]);
    if a.Handle? {
      HeadIsNew(w, a.i);
      HandledAdds(w, a.i, Receipt(w, t), w.deliveries[t].to);
      NobodyIsCounted(w, w.deliveries[t].sender);
      assert DmOk(w, t);
    } else {
      StepIsQuiet(w, a);
    }
  }

  /** The recipient's session saves a DM exactly when it handles it alone. */
  lemma {:induction false} ReceiptSavedExactly(actions: seq<Action>, t: nat)
    requires Possible(actions) && t < |Run(actions).deliveries|
    ensures DeliveryOk(Run(actions), Run(actions).deliveries[t])
    ensures RowsOf(Run(actions).rows, Receipt(Run(actions), t)) ==
            if AloneAt(actions, t) then [RecipientRow(Run(actions), t)] else []
  {
    var before, a := actions[..|actions| - 1], actions[|actions| - 1];
    var w := Run(before);
    EveryRun(actions);
    EveryRun(before);
    assert DeliveryOk(Run(actions), Run(actions).deliveries[t]);
    if t < |w.deliveries| {
      ReceiptSavedExactly(before, t);
      ReceiptStep(w, a, t);
    } else {
      if AloneAt(before, t) { AloneIsDelivered(before, t); }
      StepIsQuiet(w, a);
      NewTagHasNoRows(w, Receipt(Run(actions), t));
    }
  }

  /** With paired replies, a DM is saved as often as this: once if the sender's session has
      handled the confirmation, and once if the recipient's has handled the message alone.
      So it is saved exactly once when exactly one of the two has happened. */
  lemma DmSavedExactly(actions: seq<Action>, t: nat)
    requires Possible(actions) && AllPaired(actions) && t < |Run(actions).deliveries|
    ensures DeliveryOk(Run(actions), Run(actions).deliveries[t])
    ensures var w := Run(actions);
            && RowsOf(w.rows, DmSent(t)) == (if Confirmed(w, t) then [SenderRow(w, t)] else [])
            && RowsOf(w.rows, Receipt(w, t)) == (if AloneAt(actions, t) then [RecipientRow(w, t)] else [])
            && |DmRows(w.rows, t)| == (if Confirmed(w, t) then 1 else 0) + (if AloneAt(actions, t) then 1 else 0)
            && (|DmRows(w.rows, t)| == 1 <==> Confirmed(w, t) != AloneAt(actions, t))
  {
    var w := Run(actions);
    EveryRun(actions);
    EveryPairedRun(actions);
    ReceiptSavedExactly(actions, t);
    assert PairedRow(w, t);
    DmRowsAre(w, w.rows, t);
  }

  /** A DM from a gateway session is saved exactly once, by the sender's session and as the
      sender wrote it, if that session is still counted once it has handled the
      confirmation: whenever the recipient handles the message, if ever. */
  lemma SenderSavesOnce(actions: seq<Action>, t: nat)
    requires Possible(actions) && AllPaired(actions) && t < |Run(actions).deliveries|
    requires Confirmed(Run(actions), t) && SenderCounted(Run(actions), t)
    requires !Run(actions).sessions[Run(actions).deliveries[t].from].renamed
    ensures DmRows(Run(actions).rows, t) == [SenderRow(Run(actions), t)]
    ensures var w, d := Run(actions), Run(actions).deliveries[t];
            && d.to < |w.sessions| && d.sender == w.sessions[d.from].user
            && (!w.sessions[d.to].renamed ==> d.dm.target == w.sessions[d.to].user)
  {
    var w := Run(actions);
    EveryRun(actions);
    EveryPairedRun(actions);
    assert DeliveryOk(w, w.deliveries[t]) && PairedRow(w, t) && DmOk(w, t);
    DmRowsAre(w, w.rows, t);
    CStrOfNulFree(w.deliveries[t].dm.target);
  }

  /** A DM from a direct client whose name was never at the gateway is saved exactly once as
      soon as the recipient's session has handled it, by that session. */
  lemma RecipientSavesOnce(actions: seq<Action>, t: nat)
    requires Possible(actions) && t < |Run(actions).deliveries|
    requires Run(actions).deliveries[t].from < |Run(actions).sessions|
    requires NeverAtGateway(Run(actions), Run(actions).deliveries[t].sender)
    requires var x := Run(actions).sessions[Run(actions).deliveries[t].from]; !x.gateway || !x.renamed
    ensures Run(actions).deliveries[t].to < |Run(actions).sessions|
    ensures DmRows(Run(actions).rows, t) == if Received(Run(actions), t) then [RecipientRow(Run(actions), t)] else []
  {
    var w := Run(actions);
    EveryRun(actions);
    assert DmOk(w, t);
    assert SessionSane(w, w.deliveries[t].from);
    DmRowsAre(w, w.rows, t);
  }

  /** Whatever happens, and with no pairing assumed, a DM is saved at most twice; and twice
      only if the recipient's session handled it alone, after which a sender never renamed
      is not counted any more. */
  lemma SavedTwiceOnlyAfterTheSenderLeft(actions: seq<Action>, t: nat)
    requires Possible(actions) && t < |Run(actions).deliveries|
    requires Run(actions).deliveries[t].from < |Run(actions).sessions|
    ensures |DmRows(Run(actions).rows, t)| <= 2
    ensures |DmRows(Run(actions).rows, t)| == 2 ==>
              && Confirmed(Run(actions), t) && Received(Run(actions), t) && AloneAt(actions, t)
              && (!Run(actions).sessions[Run(actions).deliveries[t].from].renamed ==> !SenderCounted(Run(actions), t))
  {
    var w := Run(actions);
    EveryRun(actions);
    ReceiptSavedExactly(actions, t);
    assert DmOk(w, t);
    DmRowsAre(w, w.rows, t);
  }

  /** While replies pair up, the next reply that will be handled answers the oldest pending
      DM, and the pending DMs of a connected session are exactly those it will get a reply
      to, in that order. A session whose core pump has raised handles no reply any more; what
      its other pump still remembers is in nobody's way. */
  lemma RepliesPairUp(actions: seq<Action>, i: nat)
    requires Possible(actions) && AllPaired(actions) && i < |Run(actions).sessions| && Run(actions).sessions[i].gateway
    ensures var w, x := Run(actions), Run(actions).sessions[i];
            !x.deaf ==>
            && (x.connected ==> x.pending == Replies(w.deliveries, x.fromCore) + Dms(x.toCore))
            && (x.fromCore != [] && x.fromCore[0].DmRefused? ==> x.pending != [] && x.pending[0] == x.fromCore[0].dm)
            && (x.fromCore != [] && x.fromCore[0].DmSent? ==>
                  && x.fromCore[0].tag < |w.deliveries|
                  && x.pending != [] && x.pending[0] == w.deliveries[x.fromCore[0].tag].dm)
  {
    var w, x := Run(actions), Run(actions).sessions[i];
    EveryRun(actions);
    EveryPairedRun(actions);
    assert SessionSane(w, i);
    if !x.deaf && x.fromCore != [] {
      assert InStep(w, i);
      assert EventOk(w, i, Stream(x)[|x.seen|]);
      var d := w.deliveries;
      assert Replies(d, x.fromCore) == Reply(d, x.fromCore[0]) + Replies(d, x.fromCore[1..]);
    }
  }

  /** rows have been added, none of them by session i. */
  predicate SavedByOthers(rows: seq<Row>, more: seq<Row>, i: nat) {
    rows <= more && forall k :: |rows| <= k < |more| ==> more[k].writer != i
  }

  lemma StepOfDeaf(w: World, a: Action, i: nat)
    requires Sane(w) && Enabled(w, a) && i < |w.sessions| && w.sessions[i].deaf
    ensures i < |Step(w, a).sessions| && Step(w, a).sessions[i].deaf
    ensures SavedByOthers(w.rows, Step(w, a).rows, i)
  {
    StepSane(w, a);
    assert SameSession(w.sessions[i], Step(w, a).sessions[i]);
    if !a.Handle? { StepIsQuiet(w, a); }
  }

  /** What a session whose core pump has raised still remembers is never saved: over every
      continuation it saves nothing more, whatever its browser goes on sending. */
  lemma {:induction false} DeafSavesNothing(actions: seq<Action>, more: seq<Action>, i: nat)
    requires Possible(actions + more) && i < |Run(actions).sessions| && Run(actions).sessions[i].deaf
    ensures var w, v := Run(actions), Run(actions + more);
            i < |v.sessions| && v.sessions[i].deaf && SavedByOthers(w.rows, v.rows, i)
  {
    if more == [] {
      assert actions + more == actions;
    } else {
      var all, a := actions + more, more[|more| - 1];
      var before := actions + more[..|more| - 1];
      assert all[..|all| - 1] == before;
      DeafSavesNothing(actions, more[..|more| - 1], i);
      EveryRun(before);
      StepOfDeaf(Run(before), a, i);
    }
  }

  // ---------------------------------------------------------------- channel messages

  /** The exact law, NICK included: session j saves broadcast t once if it has handled it and
      knows its own user as the sender, and otherwise never. */
  lemma ChatSavedExactly(actions: seq<Action>, t: nat, j: nat)
    requires Possible(actions) && t < |Run(actions).broadcasts| && j < |Run(actions).sessions|
    ensures RowsBy(Run(actions).rows, Echo(Run(actions), t), j) ==
            if Claims(Run(actions), t, j) then [ChatRow(Run(actions), t, j)] else []
  {
    EveryRun(actions);
    assert EchoOk(Run(actions), t, j);
  }

  /** How many of the first n sessions take a broadcast for their own. */
  function Claimants(w: World, t: nat, n: nat): nat
    requires t < |w.broadcasts|
  {
    if n == 0 then 0 else Claimants(w, t, n - 1) + if Claims(w, t, n - 1) then 1 else 0
  }

  function SumBy(rows: seq<Row>, e: Event, n: nat): nat {
    if n == 0 then 0 else SumBy(rows, e, n - 1) + |RowsBy(rows, e, n - 1)|
  }

  lemma {:induction false} SumBySnoc(rows: seq<Row>, e: Event, n: nat)
    requires rows != []
    ensures var r := rows[|rows| - 1];
            SumBy(rows, e, n) == SumBy(rows[..|rows| - 1], e, n) + if r.cause == e && r.writer < n then 1 else 0
  {
    if n > 0 { SumBySnoc(rows, e, n - 1); }
  }

  lemma {:induction false} SumByOfNothing(e: Event, n: nat)
    ensures SumBy([], e, n) == 0
  {
    if n > 0 { SumByOfNothing(e, n - 1); }
  }

  lemma {:induction false} SumByIsAll(rows: seq<Row>, e: Event, n: nat)
    requires forall k :: 0 <= k < |rows| ==> rows[k].writer < n
    ensures SumBy(rows, e, n) == |RowsOf(rows, e)|
  {
    if rows == [] {
      SumByOfNothing(e, n);
    } else {
      SumBySnoc(rows, e, n);
      SumByIsAll(rows[..|rows| - 1], e, n);
    }
  }

  lemma {:induction false} ClaimantsSave(w: World, t: nat, n: nat)
    requires t < |w.broadcasts| && n <= |w.sessions| && forall j :: 0 <= j < n ==> EchoOk(w, t, j)
    ensures SumBy(w.rows, Echo(w, t), n) == Claimants(w, t, n)
  {
    if n > 0 {
      ClaimantsSave(w, t, n - 1);
      assert EchoOk(w, t, n - 1);
    }
  }

  /** In every run a broadcast is saved as often as there are sessions that take it for their
      own: exactly once when there is exactly one. */
  lemma ChatSavedPerClaimant(actions: seq<Action>, t: nat)
    requires Possible(actions) && t < |Run(actions).broadcasts|
    ensures |ChatRows(Run(actions).rows, t)| == Claimants(Run(actions), t, |Run(actions).sessions|)
  {
    var w := Run(actions);
    EveryRun(actions);
    ChatRowsAre(w, w.rows, t);
    forall k | 0 <= k < |w.rows| ensures w.rows[k].writer < |w.sessions| {
      assert RowKnown(w, w.rows[k]);
    }
    SumByIsAll(w.rows, Echo(w, t), |w.sessions|);
    forall j | 0 <= j < |w.sessions| ensures EchoOk(w, t, j) {}
    ClaimantsSave(w, t, |w.sessions|);
  }

  /** No gateway session of that user has been renamed. */
  predicate KeepsName(w: World, user: Bytes) {
    forall j :: 0 <= j < |w.sessions| && w.sessions[j].gateway && w.sessions[j].user == user ==> !w.sessions[j].renamed
  }

  lemma OnlyTheSenderClaims(w: World, t: nat, j: nat)
    requires Sane(w) && t < |w.broadcasts| && Claims(w, t, j) && KeepsName(w, w.broadcasts[t].sender)
    ensures j == w.broadcasts[t].from
  {
    SeenIsOk(w, j, Echo(w, t));
    assert SessionSane(w, j);
  }

  lemma {:induction false} AllByOne(w: World, rows: seq<Row>, t: nat)
    requires Sane(w) && t < |w.broadcasts| && KeepsName(w, w.broadcasts[t].sender)
    requires forall k :: 0 <= k < |rows| && rows[k].cause == Echo(w, t) ==> Claims(w, t, rows[k].writer)
    ensures RowsOf(rows, Echo(w, t)) == RowsBy(rows, Echo(w, t), w.broadcasts[t].from)
  {
    if rows != [] {
      AllByOne(w, rows[..|rows| - 1], t);
      if rows[|rows| - 1].cause == Echo(w, t) { OnlyTheSenderClaims(w, t, rows[|rows| - 1].writer); }
    }
  }

  lemma {:induction false} RowIsByItsWriter(rows: seq<Row>, k: nat)
    requires k < |rows|
    ensures rows[k] in RowsBy(rows, rows[k].cause, rows[k].writer)
  {
    if k < |rows| - 1 { RowIsByItsWriter(rows[..|rows| - 1], k); }
  }

  /** Unless a gateway session of the sender's user has been renamed, a broadcast is saved by
      its sender's session when it handles its own echo and by no other, however many hear
      it; a direct client's broadcast is never saved. Who else renames does not matter. */
  lemma ChatSavedOnce(actions: seq<Action>, t: nat)
    requires Possible(actions) && t < |Run(actions).broadcasts|
    requires KeepsName(Run(actions), Run(actions).broadcasts[t].sender)
    ensures var w, i := Run(actions), Run(actions).broadcasts[t].from;
            && i < |w.sessions|
            && ChatRows(w.rows, t) == (if Claims(w, t, i) then [ChatRow(w, t, i)] else [])
            && (Claims(w, t, i) ==> w.sessions[i].gateway)
            && (!w.sessions[i].renamed ==> (Claims(w, t, i) <==> Heeded(w, t, i)))
  {
    var w := Run(actions);
    EveryRun(actions);
    assert BroadcastOk(w, w.broadcasts[t]) && SessionSane(w, w.broadcasts[t].from);
    ChatRowsAre(w, w.rows, t);
    forall k | 0 <= k < |w.rows| && w.rows[k].cause == Echo(w, t) ensures Claims(w, t, w.rows[k].writer) {
      assert RowKnown(w, w.rows[k]) && EchoOk(w, t, w.rows[k].writer);
      RowIsByItsWriter(w.rows, k);
    }
    AllByOne(w, w.rows, t);
    assert EchoOk(w, t, w.broadcasts[t].from);
  }

  /** What a session never renamed has saved is a prefix of what it said, in order; what it
      has saved and what it has not handled yet is all it said, as long as the core keeps it
      connected. */
  lemma ChatSavedInOrder(actions: seq<Action>, i: nat)
    requires Possible(actions) && i < |Run(actions).sessions|
    ensures var w, x := Run(actions), Run(actions).sessions[i];
            && SavedChats(w.rows, i) == Own(x.seen, x.user)
            && (!x.renamed ==> SavedChats(w.rows, i) <= SaidBy(w.broadcasts, i))
            && (!x.renamed && x.connected ==>
                  SavedChats(w.rows, i) + Own(x.fromCore, x.user) == SaidBy(w.broadcasts, i))
  {
    var w, x := Run(actions), Run(actions).sessions[i];
    EveryRun(actions);
    assert InOrder(w, i);
    OwnConcat(x.seen, x.fromCore, x.user);
  }

  lemma {:induction false} OwnConcat(a: seq<Event>, b: seq<Event>, user: Bytes)
    ensures Own(a + b, user) == Own(a, user) + Own(b, user)
  {
    if b == [] {
      assert a + b == a;
    } else {
      assert (a + b)[..|a + b| - 1] == a + b[..|b| - 1];
      OwnConcat(a, b[..|b| - 1], user);
    }
  }

  // ---------------------------------------------------------------- active_gateway_users

  /** The dictionary holds exactly the names of the endpoints that have been entered and have
      not reached their finally block, with their number, and no zeros. */
  lemma ActiveUsersAreCounted(actions: seq<Action>, user: Bytes)
    requires Possible(actions)
    ensures ActiveCount(Run(actions).active, user) == Tally(Run(actions).sessions, user)
    ensures user in Run(actions).active
            <==> (exists x :: x in Run(actions).sessions && Counted(x) && x.user == user)
  {
    EveryRun(actions);
    NobodyIsCounted(Run(actions), user);
  }

  lemma {:induction false} AbandonedRemains(actions: seq<Action>, more: seq<Action>, i: nat)
    requires Possible(actions + more) && i < |Run(actions).sessions| && Run(actions).sessions[i].abandoned
    ensures var v := Run(actions + more);
            i < |v.sessions| && v.sessions[i].abandoned && v.sessions[i].user == Run(actions).sessions[i].user
  {
    if more == [] {
      assert actions + more == actions;
    } else {
      var all, a := actions + more, more[|more| - 1];
      assert all[..|all| - 1] == actions + more[..|more| - 1];
      AbandonedRemains(actions, more[..|more| - 1], i);
      AbandonedStays(Run(actions + more[..|more| - 1]), a, i);
    }
  }

  /** An endpoint whose ready frame could not be sent stands before the try block, so its
      name stays counted whatever happens later: no session will ever save a DM of a direct
      client of that name. */
  lemma AbandonedIsCountedForEver(actions: seq<Action>, more: seq<Action>, i: nat)
    requires Possible(actions + more) && i < |Run(actions).sessions| && Run(actions).sessions[i].abandoned
    ensures var v, user := Run(actions + more), Run(actions).sessions[i].user;
            user in v.active && !NobodyCounted(v, user)
  {
    AbandonedRemains(actions, more, i);
    EveryRun(actions + more);
    AbandonedIsCounted(Run(actions + more), i);
  }

  lemma AbandonedIsCounted(w: World, i: nat)
    requires Sane(w) && ActiveOk(w) && i < |w.sessions| && w.sessions[i].abandoned
    ensures w.sessions[i].user in w.active && !NobodyCounted(w, w.sessions[i].user)
  {
    assert SessionSane(w, i);
    NobodyIsCounted(w, w.sessions[i].user);
  }

  /** What a step never changes of a session. */
  predicate SameEndpoint(x: Session, y: Session) {
    y.user == x.user && (x.abandoned ==> y.abandoned)
  }

  lemma ReplyKeepsEndpoints(w: World, a: Action, i: nat)
    requires Enabled(w, a) && i < |w.sessions|
    requires Answering(a)
    ensures i < |Step(w, a).sessions| && SameEndpoint(w.sessions[i], Step(w, a).sessions[i])
  {
  }

  lemma AbandonedStays(w: World, a: Action, i: nat)
    requires Enabled(w, a) && i < |w.sessions|
    ensures i < |Step(w, a).sessions| && SameEndpoint(w.sessions[i], Step(w, a).sessions[i])
  {
    match a
    case Deliver(from, to, dropped) => DeliveredSession(w, from, to, dropped, i);
    case Say(from, channel, members, drops) => SaidParts(w, from, channel, members, drops);
    case Open(_, _) =>
    case Start(_) =>
    case Abandon(_) =>
    case Send(_, _) =>
    case Handle(_) =>
    case End(_, _) =>
    case Late(_, _, _) =>
    case _ => ReplyKeepsEndpoints(w, a, i);
  }
}
