/** What a run of core steps does to the rest of the bridge: nobody's commands but one, the
    books by one entry at most, and to the output of a closed connection the cut that was
    chosen for it. */
module CoreBridgeBooks {
  import opened Bytes
  import opened Wire
  import opened Bridge
  import opened BridgeInvariant
  import opened BridgePairing
  import opened CoreBridge
  import opened CoreBridgeLaws
  import C = Core
  import CoreClosed

  // ---------------------------------------------------------------- the books

  /** The broadcasts are the log, and as many direct messages are delivered as counted. */
  predicate BooksAgree(s: C.State, w: World) {
    && |w.broadcasts| == |s.log|
    && (forall k :: 0 <= k < |s.log| ==> LineIs(w.broadcasts[k], s.log[k]))
    && |w.deliveries| == s.stats.directMessages
  }

  predicate LineIs(b: Broadcast, m: C.Chat) {
    m == C.Chat(b.channel, b.sender, b.text)
  }

  predicate SameWorldBooks(w: World, v: World) {
    |v.sessions| == |w.sessions| && v.broadcasts == w.broadcasts && v.deliveries == w.deliveries
  }

  lemma {:induction false} AsidesKeepBooks(w: World, actions: seq<Action>, v: World, keep: nat -> nat)
    requires CoreDoes(w, actions, v) && Asides(actions, keep)
    ensures SameWorldBooks(w, v)
    decreases |actions|
  {
    if actions != [] { AsidesKeepBooks(Step(w, actions[0]), actions[1..], v, keep); }
  }

  /** What the step that takes session k's command writes into the books. */
  predicate Booked(w: World, v: World, a: Action, k: nat)
    requires k < |w.sessions|
  {
    var x := w.sessions[k];
    && |v.sessions| == |w.sessions|
    && |v.deliveries| == |w.deliveries| + (if a.Deliver? then 1 else 0)
    && if a.Say? then
         && x.toCore != [] && x.toCore[0].SayCommand?
         && v.broadcasts == w.broadcasts + [Broadcast(k, a.channel, x.name, CStr(x.toCore[0].text))]
       else v.broadcasts == w.broadcasts
  }

  lemma ConsumingBooks(w: World, a: Action, k: nat, keep: nat -> nat)
    requires Enabled(w, a) && Consuming(a, k, keep)
    ensures k < |w.sessions| && Booked(w, Step(w, a), a, k)
  {
    match a
    case Deliver(i, to, dropped) =>
      DeliveredStatus(w, i, to, dropped);
      DeliveredSession(w, i, to, dropped, i);
    case Say(i, channel, members, drops) => SaidParts(w, i, channel, members, drops);
    case _ =>
  }

  lemma CommandBooks(w: World, actions: seq<Action>, v: World, k: nat, keep: nat -> nat)
    requires CoreDoes(w, actions, v) && k < |w.sessions| && (Spends(actions, k, keep) || actions == [Drop(k, keep(k))])
    ensures Booked(w, v, actions[0], k)
  {
    var u := Step(w, actions[0]);
    if actions != [Drop(k, keep(k))] { ConsumingBooks(w, actions[0], k, keep); }
    assert Asides(actions[1..], keep) by { if actions == [Drop(k, keep(k))] { assert actions[1..] == []; } }
    AsidesKeepBooks(u, actions[1..], v, keep);
  }

  lemma BooksGoOn(s: C.State, r: C.State, w: World, v: World, a: Action, k: nat)
    requires BooksAgree(s, w) && k < |w.sessions| && Booked(w, v, a, k) && BooksFollow(s, r, w.sessions[k], a)
    ensures BooksAgree(r, v)
  {
    forall n | 0 <= n < |r.log| ensures LineIs(v.broadcasts[n], r.log[n]) {
      if n < |s.log| { assert LineIs(w.broadcasts[n], s.log[n]); }
    }
  }

  // ---------------------------------------------------------------- closed connections

  /** No cut takes in what has been put on a stream since. */
  predicate Caps(w: World, keep: nat -> nat) {
    forall j :: 0 <= j < |w.sessions| ==> keep(j) <= |w.sessions[j].fromCore|
  }

  function CapOf(w: World, j: nat, n: nat): nat {
    if j < |w.sessions| && |w.sessions[j].fromCore| < n then |w.sessions[j].fromCore| else n
  }

  function Capped(w: World, keep: nat -> nat): nat -> nat {
    (j: nat) => CapOf(w, j, keep(j))
  }

  lemma CappedCaps(w: World, keep: nat -> nat)
    ensures Caps(w, Capped(w, keep))
  {
    forall j | 0 <= j < |w.sessions| ensures Capped(w, keep)(j) <= |w.sessions[j].fromCore| {
      assert Capped(w, keep)(j) == CapOf(w, j, keep(j));
    }
  }

  /** x at first and y later: its output has gone on, or been cut to n events once the
      connection was closed, and then stays. */
  predicate Trimmed(x: Session, y: Session, n: nat) {
    && y.seen == x.seen
    && if !x.connected then !y.connected && y.fromCore == x.fromCore
       else if y.connected then x.fromCore <= y.fromCore
       else n <= |x.fromCore| && y.fromCore == x.fromCore[..n]
  }

  predicate AllTrimmed(w: World, v: World, keep: nat -> nat) {
    && |v.sessions| == |w.sessions|
    && forall j :: 0 <= j < |w.sessions| ==> Trimmed(w.sessions[j], v.sessions[j], keep(j))
  }

  lemma PutTrims(x: Session, y: Session, e: Event, n: nat)
    requires Trimmed(x, y, n) && y.connected
    ensures Trimmed(x, Put(y, e), n)
  {
  }

  lemma CutTrims(x: Session, y: Session, n: nat)
    requires Trimmed(x, y, n) && y.connected && n <= |x.fromCore|
    ensures Trimmed(x, Cut(y, n), n)
  {
  }

  lemma TakeTrims(x: Session, y: Session, n: nat)
    requires Trimmed(x, y, n) && y.toCore != []
    ensures Trimmed(x, Take(y), n)
  {
  }

  lemma HeardTrims(x: Session, y: Session, j: nat, e: Event, members: set<nat>, drops: map<nat, nat>, n: nat)
    requires Trimmed(x, y, n) && n <= |x.fromCore| && drops.Keys <= members
    requires (j in members ==> y.connected) && (j in drops ==> drops[j] == n)
    ensures Trimmed(x, Heard(y, j, e, members, drops), n)
  {
    if j in drops { CutTrims(x, y, n); } else if j in members { PutTrims(x, y, e, n); }
  }

  lemma SaidTrims(w: World, u: World, a: Action, keep: nat -> nat)
    requires AllTrimmed(w, u, keep) && Caps(w, keep) && Enabled(u, a) && a.Say? && Uses(a, keep)
    ensures AllTrimmed(w, Step(u, a), keep)
  {
    SaidParts(u, a.i, a.channel, a.members, a.drops);
    var e := Echo(Step(u, a), |u.broadcasts|);
    forall j | 0 <= j < |w.sessions| ensures Trimmed(w.sessions[j], Step(u, a).sessions[j], keep(j)) {
      var x, y := w.sessions[j], u.sessions[j];
      assert Trimmed(x, y, keep(j));
      if j == a.i { TakeTrims(x, y, keep(j)); }
      HeardTrims(x, Taken(u, a.i).sessions[j], j, e, a.members, a.drops, keep(j));
    }
  }

  lemma DeliveredOneTrims(x: Session, u: World, a: Action, j: nat, n: nat)
    requires Enabled(u, a) && a.Deliver? && j < |u.sessions|
    requires Trimmed(x, u.sessions[j], n) && n <= |x.fromCore|
    requires j == a.i && a.dropped.Some? ==> a.dropped.value == n
    ensures j < |Step(u, a).sessions| && Trimmed(x, Step(u, a).sessions[j], n)
  {
    DeliveredSession(u, a.i, a.to, a.dropped, j);
    var e := DmEvent(|u.deliveries|, u.sessions[a.i].name, CStr(u.sessions[a.i].toCore[0].dm.text));
    var y := if j == a.to then Put(u.sessions[j], e) else u.sessions[j];
    if j == a.to { PutTrims(x, u.sessions[j], e, n); }
    if j == a.i {
      TakeTrims(x, y, n);
      if a.dropped.None? { PutTrims(x, Take(y), DmSent(|u.deliveries|), n); } else { CutTrims(x, Take(y), n); }
    }
  }

  lemma DeliveredTrims(w: World, u: World, a: Action, keep: nat -> nat)
    requires AllTrimmed(w, u, keep) && Caps(w, keep) && Enabled(u, a) && a.Deliver? && Uses(a, keep)
    ensures AllTrimmed(w, Step(u, a), keep)
  {
    DeliveredStatus(u, a.i, a.to, a.dropped);
    forall j | 0 <= j < |w.sessions| ensures Trimmed(w.sessions[j], Step(u, a).sessions[j], keep(j)) {
      assert Trimmed(w.sessions[j], u.sessions[j], keep(j));
      DeliveredOneTrims(w.sessions[j], u, a, j, keep(j));
    }
  }

  /** The one session that a plain step of the core changes. */
  function Touched(a: Action): nat
    requires Answering(a)
  {
    if a.Overflow? then a.to else a.i
  }

  lemma OtherOneTrims(x: Session, u: World, a: Action, j: nat, n: nat)
    requires Enabled(u, a) && Answering(a) && j < |u.sessions|
    requires Trimmed(x, u.sessions[j], n) && n <= |x.fromCore|
    requires (a.Drop? || a.Overflow?) && j == Touched(a) ==> a.keep == n
    ensures j < |Step(u, a).sessions| && Trimmed(x, Step(u, a).sessions[j], n)
  {
    var y := u.sessions[j];
    if j == Touched(a) && (a.Drop? || a.Overflow?) {
      CutTrims(x, y, n);
    } else if j == Touched(a) {
      PutTrims(x, y, Other, n);
    }
  }

  lemma OtherTrims(w: World, u: World, a: Action, keep: nat -> nat)
    requires AllTrimmed(w, u, keep) && Caps(w, keep) && Enabled(u, a) && Uses(a, keep) && Answering(a)
    ensures AllTrimmed(w, Step(u, a), keep)
  {
    forall j | 0 <= j < |w.sessions|
      ensures j < |Step(u, a).sessions| && Trimmed(w.sessions[j], Step(u, a).sessions[j], keep(j))
    {
      assert Trimmed(w.sessions[j], u.sessions[j], keep(j));
      OtherOneTrims(w.sessions[j], u, a, j, keep(j));
    }
    StatusKept(u, a);
  }

  lemma StepTrims(w: World, u: World, a: Action, keep: nat -> nat)
    requires AllTrimmed(w, u, keep) && Caps(w, keep) && Enabled(u, a) && CoreAction(a) && !a.Open? && Uses(a, keep)
    ensures AllTrimmed(w, Step(u, a), keep)
  {
    if a.Say? { SaidTrims(w, u, a, keep); }
    else if a.Deliver? { DeliveredTrims(w, u, a, keep); }
    else { OtherTrims(w, u, a, keep); }
  }

  predicate AllUse(actions: seq<Action>, keep: nat -> nat) {
    forall n :: 0 <= n < |actions| ==> !actions[n].Open? && Uses(actions[n], keep)
  }

  lemma {:induction false} CoreTrims(w: World, u: World, actions: seq<Action>, v: World, keep: nat -> nat)
    requires AllTrimmed(w, u, keep) && Caps(w, keep) && CoreDoes(u, actions, v) && AllUse(actions, keep)
    ensures AllTrimmed(w, v, keep)
    decreases |actions|
  {
    if actions != [] {
      StepTrims(w, u, actions[0], keep);
      CoreTrims(w, Step(u, actions[0]), actions[1..], v, keep);
    }
  }

  lemma NothingTrimmed(w: World, keep: nat -> nat)
    ensures AllTrimmed(w, w, keep)
  {
  }

  lemma AsidesUse(actions: seq<Action>, keep: nat -> nat)
    requires Asides(actions, keep)
    ensures AllUse(actions, keep)
  {
  }

  lemma SpendsUse(actions: seq<Action>, k: nat, keep: nat -> nat)
    requires Spends(actions, k, keep)
    ensures AllUse(actions, keep)
  {
    AsidesUse(actions[1..], keep);
    forall n | 0 <= n < |actions| ensures !actions[n].Open? && Uses(actions[n], keep) {
      if n > 0 { assert actions[n] == actions[1..][n - 1]; }
    }
  }

  /** A command, with what the core does for it, trims as was chosen. */
  lemma CommandTrims(w: World, actions: seq<Action>, v: World, k: nat, keep: nat -> nat)
    requires CoreDoes(w, actions, v) && Caps(w, keep)
    requires Spends(actions, k, keep) || actions == [Drop(k, keep(k))] || Asides(actions, keep)
    ensures AllTrimmed(w, v, keep)
  {
    NothingTrimmed(w, keep);
    if Spends(actions, k, keep) { SpendsUse(actions, k, keep); }
    CoreTrims(w, w, actions, v, keep);
  }

  // ---------------------------------------------------------------- where a session comes from

  /** The connection a session is, by its serial number, and how many frames had been queued
      on it before the session began. */
  datatype Origin = Origin(serial: nat, base: nat)

  /** The events are the first of these frames. */
  predicate Starts(es: seq<Event>, fs: seq<Frame>) {
    |es| <= |fs| && Like(es, fs[..|es|])
  }

  predicate FromHistory(h: C.History, x: Session, o: Origin) {
    h.serial == o.serial && o.base <= |h.accepted| && Starts(Stream(x), h.accepted[o.base..])
  }

  /** A closed session was a connection now closed, and what it has got and will get is the
      first part of what was queued on it. */
  predicate Buried(closed: seq<C.Closed>, x: Session, o: Origin) {
    exists k :: 0 <= k < |closed| && FromHistory(closed[k].history, x, o)
  }

  predicate Originates(cs: seq<C.Conn>, at: seq<nat>, base: seq<nat>, origins: seq<Origin>) {
    && |at| == |base| == |cs|
    && forall i :: 0 <= i < |cs| && C.Registered(cs[i]) ==>
         at[i] < |origins| && origins[at[i]] == Origin(cs[i].history.serial, base[i])
  }

  predicate AllBuried(closed: seq<C.Closed>, w: World, origins: seq<Origin>) {
    && |origins| == |w.sessions|
    && forall j :: 0 <= j < |w.sessions| && !w.sessions[j].connected ==> Buried(closed, w.sessions[j], origins[j])
  }

  lemma StartsShorter(es: seq<Event>, fs: seq<Frame>, ds: seq<Event>, gs: seq<Frame>)
    requires Starts(es, fs) && ds <= es && fs <= gs
    ensures Starts(ds, gs)
  {
    forall k | 0 <= k < |ds| ensures Looks(ds[k], gs[..|ds|][k]) {
      assert Looks(es[k], fs[..|es|][k]);
    }
  }

  lemma BuriedStays(closed: seq<C.Closed>, more: seq<C.Closed>, x: Session, y: Session, o: Origin)
    requires Buried(closed, x, o) && closed <= more && Stream(y) == Stream(x)
    ensures Buried(more, y, o)
  {
    var k :| 0 <= k < |closed| && FromHistory(closed[k].history, x, o);
    assert FromHistory(more[k].history, y, o);
  }

  /** A session cut with its connection. */
  lemma BuriedNow(c: C.Conn, x: Session, base: nat, y: Session, closed: seq<C.Closed>)
    requires SlotOk(c, x, base) && Stream(y) <= Stream(x) && CoreClosed.Ended(closed, c.history)
    ensures Buried(closed, y, Origin(c.history.serial, base))
  {
    var k :| 0 <= k < |closed| && CoreClosed.Follows(c.history, closed[k].history);
    var h := closed[k].history;
    var fs := c.history.accepted[base..];
    assert fs[..|Stream(x)|] == fs;
    assert Starts(Stream(x), fs) && fs <= h.accepted[base..];
    StartsShorter(Stream(x), fs, Stream(y), h.accepted[base..]);
    assert FromHistory(h, y, Origin(c.history.serial, base));
  }

  lemma CutIsPrefix(x: Session, y: Session, n: nat)
    requires Trimmed(x, y, n) && x.connected && !y.connected
    ensures Stream(y) <= Stream(x)
  {
  }

  /** A session that is closed in v, seen from w. */
  lemma StaysBuried(s: C.State, r: C.State, w: World, v: World, at: seq<nat>, base: seq<nat>, origins: seq<Origin>,
                    keep: nat -> nat, j: nat)
    requires Mirrors(s.clients, w, at, base) && Originates(s.clients, at, base, origins)
    requires AllBuried(s.closed, w, origins)
    requires CoreClosed.Moves(s, r) && Mirrors(r.clients, v, at, base) && AllTrimmed(w, v, keep)
    requires j < |w.sessions| && !v.sessions[j].connected
    ensures Buried(r.closed, v.sessions[j], origins[j])
  {
    var x, y := w.sessions[j], v.sessions[j];
    assert Trimmed(x, y, keep(j));
    if !x.connected {
      BuriedStays(s.closed, r.closed, x, y, origins[j]);
    } else {
      assert Behind(s.clients, at, j);
      var i :| 0 <= i < |s.clients| && C.Registered(s.clients[i]) && at[i] == j;
      assert CoreClosed.Accounted(s.clients[i], r.clients[i], r.closed);
      CutIsPrefix(x, y, keep(j));
      BuriedNow(s.clients[i], x, base[i], y, r.closed);
    }
  }

  lemma OriginsStay(s: C.State, r: C.State, at: seq<nat>, base: seq<nat>, origins: seq<Origin>)
    requires Originates(s.clients, at, base, origins) && CoreClosed.Moves(s, r)
    requires forall i :: 0 <= i < |s.clients| && C.Registered(r.clients[i]) ==> C.Registered(s.clients[i])
    ensures Originates(r.clients, at, base, origins)
  {
    forall i | 0 <= i < |r.clients| && C.Registered(r.clients[i])
      ensures at[i] < |origins| && origins[at[i]] == Origin(r.clients[i].history.serial, base[i])
    {
      assert CoreClosed.Accounted(s.clients[i], r.clients[i], r.closed);
    }
  }
}
