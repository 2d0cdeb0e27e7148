/** Every run of the core is a run of the bridge, and what the bridge's laws say of its
    broadcasts they say of the core's log. */
module CoreBridgeRun {
  import opened Bytes
  import opened Wire
  import opened Bridge
  import opened BridgeHistory
  import opened BridgeInvariant
  import opened BridgeLaws
  import opened BridgeSaves
  import opened CoreBridge
  import opened CoreBridgeBooks
  import opened CoreBridgeLaws
  import opened CoreBridgeTies
  import C = Core
  import CoreClosed
  import CoreDelivery
  import CoreRun
  import Store

  // ---------------------------------------------------------------- reading and writing

  lemma QuietTied(s: C.State, r: C.State, l: Link)
    requires Tied(s, l) && |r.clients| == |s.clients|
    requires CoreClosed.SameBooks(s, r) && r.closed == s.closed
    requires forall j :: 0 <= j < |s.clients| ==> SameToTheBridge(s.clients[j], r.clients[j])
    ensures Tied(r, l)
  {
    QuietIsBridged(s.clients, l.world, l.place.at, l.place.base, r.clients);
    forall i | 0 <= i < |r.clients| && C.Registered(r.clients[i])
      ensures l.place.at[i] < |l.origins|
      ensures l.origins[l.place.at[i]] == Origin(r.clients[i].history.serial, l.place.base[i])
    {
      assert SameToTheBridge(s.clients[i], r.clients[i]);
    }
  }

  lemma DispatchTied(s: C.State, i: nat, l: Link, keep: nat -> nat, gateway: nat -> bool) returns (m: Link)
    requires CoreDelivery.Sound(s) && C.Live(s, i) && CoreRun.SettledBut(s, i) && Tied(s, l)
    requires CoreRun.Draining(s.clients[i]) && FrameReady(s.clients[i].inbuf)
    ensures Tied(C.Dispatch(s, i, FirstFrame(s.clients[i].inbuf)), m) && Goes(l.world, m.world)
  {
    var f := FirstFrame(s.clients[i].inbuf);
    var t := CoreRun.Dispatching(s, i, f);
    CoreRun.DispatchingSound(s, i);
    QuietTied(s, t, l);
    if s.clients[i].registered {
      m := KnownTied(t, i, f, l, keep);
    } else {
      m := StrangerTied(t, i, f, l, gateway(|l.world.sessions|));
    }
  }

  lemma MalformedTied(s: C.State, i: nat, l: Link, keep: nat -> nat) returns (m: Link)
    requires C.Live(s, i) && Malformed(s.clients[i].inbuf) && Tied(s, l)
    ensures Tied(C.Drain(s, i).state, m) && Goes(l.world, m.world)
  {
    var g, t := Frame(C.ERROR, Ascii("malformed frame")), C.CountMalformed(s);
    var r := C.Deliver(t, i, g);
    CoreClosed.DeliverMoves(t, i, g);
    if s.clients[i].registered {
      var cuts := Capped(l.world, keep);
      CappedCaps(l.world, keep);
      var actions, v := MalformedIsBridged(s, i, l.world, l.place.at, l.place.base, cuts);
      CoreGoes(l.world, actions, v);
      AsidesReady(l.world, actions, v, cuts);
      AsidesKeepBooks(l.world, actions, v, cuts);
      CommandTrims(l.world, actions, v, i, cuts);
      CoreStepTraced(t, r, l, v, cuts);
      m := Link(v, l.place, l.origins);
    } else {
      PlainReplies(t, i, g);
      StrangerReplies(s.clients, l.world, l.place.at, l.place.base, i, g, r.clients);
      UnseenTraced(t, r, l);
      m := l;
      GoesNowhere(l.world);
    }
  }

  /** One round of the loop of drain_input. */
  lemma RoundTied(s: C.State, i: nat, l: Link, keep: nat -> nat, gateway: nat -> bool) returns (m: Link)
    requires CoreDelivery.Sound(s) && C.Live(s, i) && CoreRun.SettledBut(s, i) && Tied(s, l)
    requires CoreRun.Draining(s.clients[i]) && FrameReady(s.clients[i].inbuf)
    ensures var b := s.clients[i].inbuf;
            var t := C.Dispatch(s, i, FirstFrame(b));
            && (if C.Live(t, i) then Tied(C.Consume(t, i, AfterFirst(b)), m) else Tied(t, m))
            && Goes(l.world, m.world)
  {
    var b := s.clients[i].inbuf;
    var t := C.Dispatch(s, i, FirstFrame(b));
    m := DispatchTied(s, i, l, keep, gateway);
    if C.Live(t, i) { QuietTied(t, C.Consume(t, i, AfterFirst(b)), m); }
  }

  lemma DrainUnfolds(s: C.State, i: nat)
    requires i < |s.clients| && FrameReady(s.clients[i].inbuf)
    ensures var b := s.clients[i].inbuf;
            var t := C.Dispatch(s, i, FirstFrame(b));
            C.Drain(s, i).state == if C.Live(t, i) then C.Drain(C.Consume(t, i, AfterFirst(b)), i).state else t
  {
  }

  lemma {:induction false} DrainTied(s: C.State, i: nat, l: Link, keep: nat -> nat, gateway: nat -> bool)
    returns (m: Link)
    requires CoreDelivery.Sound(s) && C.Live(s, i) && CoreRun.SettledBut(s, i) && CoreRun.Draining(s.clients[i])
    requires Tied(s, l)
    ensures Tied(C.Drain(s, i).state, m) && Goes(l.world, m.world)
    decreases |s.clients[i].inbuf|
  {
    var b := s.clients[i].inbuf;
    if Malformed(b) {
      m := MalformedTied(s, i, l, keep);
    } else if !FrameReady(b) {
      m := l;
      GoesNowhere(l.world);
    } else {
      var t := C.Dispatch(s, i, FirstFrame(b));
      DrainUnfolds(s, i);
      m := RoundTied(s, i, l, keep, gateway);
      if C.Live(t, i) {
        CoreRun.DrainRound(s, i);
        var n := DrainTied(C.Consume(t, i, AfterFirst(b)), i, m, keep, gateway);
        GoesOn(l.world, m.world, n.world);
        m := n;
      }
    }
  }

  lemma CloseTied(s: C.State, i: nat, why: C.Reason, l: Link, keep: nat -> nat) returns (m: Link)
    requires C.Live(s, i) && Tied(s, l)
    ensures Tied(C.Reset(s, i, why), m) && Goes(l.world, m.world)
  {
    CoreClosed.ResetMoves(s, i, why);
    if s.clients[i].registered {
      m := CloseKnownTied(s, i, why, l, keep);
    } else {
      m := l;
      GoesNowhere(l.world);
      StrangerChanges(s.clients, l.world, l.place.at, l.place.base, i, C.Blank());
      UnseenTraced(s, C.Reset(s, i, why), l);
    }
  }

  lemma CloseKnownTied(s: C.State, i: nat, why: C.Reason, l: Link, keep: nat -> nat) returns (m: Link)
    requires C.Live(s, i) && s.clients[i].registered && Tied(s, l)
    ensures Tied(C.Reset(s, i, why), m) && Goes(l.world, m.world)
  {
    var r, k, cuts := C.Reset(s, i, why), l.place.at[i], Capped(l.world, keep);
    CappedCaps(l.world, keep);
    var a := Drop(k, cuts(k));
    CoreClosed.ResetMoves(s, i, why);
    CloseIsBridged(s.clients, l.world, l.place.at, l.place.base, i, cuts);
    GoesOne(l.world, a);
    AsideReady(l.world, a);
    CommandTrims(l.world, [a], Step(l.world, a), k, cuts);
    CoreStepTraced(s, r, l, Step(l.world, a), cuts);
    m := Link(Step(l.world, a), l.place, l.origins);
  }

  lemma ChunkTied(s: C.State, i: nat, chunk: Bytes, l: Link, keep: nat -> nat, gateway: nat -> bool) returns (m: Link)
    requires CoreDelivery.Sound(s) && CoreRun.AllSettled(s) && C.Live(s, i) && Tied(s, l)
    requires |s.clients[i].inbuf| + |chunk| <= C.INBUF_CAP
    ensures Tied(C.Drain(C.Append(s, i, chunk), i).state, m) && Goes(l.world, m.world)
  {
    CoreRun.AppendSound(s, i, chunk);
    QuietTied(s, C.Append(s, i, chunk), l);
    m := DrainTied(C.Append(s, i, chunk), i, l, keep, gateway);
  }

  lemma {:induction false} ReadTied(s: C.State, i: nat, answers: seq<C.Recv>, l: Link,
                                    keep: nat -> nat, gateway: nat -> bool)
    returns (m: Link)
    requires CoreDelivery.Sound(s) && CoreRun.AllSettled(s) && C.Live(s, i) && Tied(s, l)
    ensures Tied(C.ReadFrom(s, i, answers), m) && Goes(l.world, m.world)
    decreases |answers|, if answers != [] && answers[0].Data? then |answers[0].bytes| else 0
  {
    if CoreRun.HasRead(s, i, answers) {
      var n := C.Min(|answers[0].bytes|, C.INBUF_CAP - |s.clients[i].inbuf|);
      var chunk := answers[0].bytes[..n];
      var d := C.Drain(C.Append(s, i, chunk), i);
      CoreRun.ReadChunk(s, i, chunk);
      CoreRun.ReadFromChunk(s, i, answers, n);
      m := ChunkTied(s, i, chunk, l, keep, gateway);
      if d.ok {
        var k := ReadTied(d.state, i, C.Later(answers, n), m, keep, gateway);
        GoesOn(l.world, m.world, k.world);
        m := k;
      }
    } else if |s.clients[i].inbuf| < C.INBUF_CAP && answers != [] && answers[0].RecvInterrupted? {
      CoreRun.ReadAgain(s, i, answers);
      m := ReadTied(s, i, answers[1..], l, keep, gateway);
    } else {
      m := ReadEndTied(s, i, answers, l, keep);
    }
  }

  lemma ReadEndTied(s: C.State, i: nat, answers: seq<C.Recv>, l: Link, keep: nat -> nat) returns (m: Link)
    requires C.Live(s, i) && Tied(s, l) && !CoreRun.HasRead(s, i, answers)
    requires |s.clients[i].inbuf| < C.INBUF_CAP && answers != [] ==> !answers[0].RecvInterrupted?
    ensures Tied(C.ReadFrom(s, i, answers), m) && Goes(l.world, m.world)
  {
    if |s.clients[i].inbuf| >= C.INBUF_CAP {
      m := CloseTied(s, i, C.BufferFull, l, keep);
    } else if answers == [] || answers[0].RecvAgain? {
      m := l;
      GoesNowhere(l.world);
    } else if answers[0].RecvError? {
      m := CloseTied(s, i, C.RecvFailed, l, keep);
    } else {
      m := CloseTied(s, i, C.PeerClosed, l, keep);
    }
  }

  lemma {:induction false} WriteTied(s: C.State, i: nat, answers: seq<C.Send>, l: Link, keep: nat -> nat)
    returns (m: Link)
    requires CoreDelivery.Sound(s) && CoreRun.AllSettled(s) && C.Live(s, i) && Tied(s, l)
    ensures Tied(C.WriteTo(s, i, answers), m) && Goes(l.world, m.world)
    decreases |answers|
  {
    var q := s.clients[i].queue;
    if q == [] || answers == [] || answers[0].SendAgain? {
      m := l;
      GoesNowhere(l.world);
    } else if answers[0].SendInterrupted? {
      m := WriteTied(s, i, answers[1..], l, keep);
    } else if answers[0].SendError? || answers[0].count == 0 || q[0].sent >= |q[0].data| {
      m := CloseTied(s, i, C.SendFailed, l, keep);
    } else {
      CoreRun.OneWritten(s, i, answers[0].count);
      CoreRun.WriteGoesOn(s, i, answers);
      WroteTied(s, i, answers[0].count, l);
      m := WriteTied(CoreRun.Wrote(s, i, answers[0].count), i, answers[1..], l, keep);
    }
  }

  lemma WroteTied(s: C.State, i: nat, count: nat, l: Link)
    requires Tied(s, l) && C.Live(s, i)
    requires s.clients[i].queue != [] && s.clients[i].queue[0].sent < |s.clients[i].queue[0].data|
    ensures Tied(CoreRun.Wrote(s, i, count), l)
  {
    QuietTied(s, CoreRun.Wrote(s, i, count), l);
  }

  // ---------------------------------------------------------------- the loop

  lemma ServeTied(s: C.State, fd: int, ev: C.Revents, l: Link, keep: nat -> nat, gateway: nat -> bool) returns (m: Link)
    requires CoreDelivery.Sound(s) && CoreRun.AllSettled(s) && fd >= 0 && Tied(s, l)
    ensures Tied(C.Serve(s, fd, ev), m) && Goes(l.world, m.world)
  {
    var i := C.FindFd(s.clients, fd);
    m := l;
    GoesNowhere(l.world);
    if i >= 0 && ev.error {
      m := CloseTied(s, i, C.PollError, l, keep);
    } else if i >= 0 {
      var t := s;
      if ev.readable {
        t := C.ReadFrom(s, i, ev.recvs);
        CoreRun.ReadSound(s, i, ev.recvs);
        m := ReadTied(s, i, ev.recvs, l, keep, gateway);
      }
      if C.Live(t, i) && ev.writable {
        var n := WriteTied(t, i, ev.sends, m, keep);
        GoesOn(l.world, m.world, n.world);
        m := n;
      }
    }
  }

  predicate AllOpen(fds: seq<int>) {
    forall k :: 0 <= k < |fds| ==> fds[k] >= 0
  }

  /** A sound state from which the next descriptor is served. */
  ghost predicate ServesOn(s: C.State, fd: int, events: seq<C.Revents>, k: nat, t: C.State) {
    && CoreDelivery.Sound(s) && CoreRun.AllSettled(s) && fd >= 0
    && t == if k < |events| then C.Serve(s, fd, events[k]) else s
  }

  ghost predicate RoundAt(states: seq<C.State>, fds: seq<int>, events: seq<C.Revents>, k: nat)
    requires k < |fds| && |states| == |fds| + 1
  {
    ServesOn(states[k], fds[k], events, k, states[k + 1])
  }

  /** The states before and after each round of a pass. */
  lemma RoundsOf(s: C.State, fds: seq<int>, events: seq<C.Revents>) returns (states: seq<C.State>)
    requires CoreDelivery.Sound(s) && CoreRun.AllSettled(s) && AllOpen(fds)
    ensures |states| == |fds| + 1 && states[0] == s && states[|fds|] == C.ServeAll(s, fds, events, |fds|)
    ensures forall k :: 0 <= k < |fds| ==> RoundAt(states, fds, events, k)
  {
    states := seq(|fds| + 1, k requires 0 <= k <= |fds| => C.ServeAll(s, fds, events, k));
    CoreRun.NobodyServed(s, fds, events);
    forall k | 0 <= k < |fds| ensures RoundAt(states, fds, events, k) {
      RoundServes(s, fds, events, k);
    }
  }

  lemma RoundServes(s: C.State, fds: seq<int>, events: seq<C.Revents>, k: nat)
    requires CoreDelivery.Sound(s) && CoreRun.AllSettled(s) && AllOpen(fds) && k < |fds|
    ensures ServesOn(C.ServeAll(s, fds, events, k), fds[k], events, k, C.ServeAll(s, fds, events, k + 1))
  {
    CoreRun.ServeAllSound(s, fds, events, k);
  }

  /** From l the bridge can go to a world that mirrors s. */
  ghost predicate Reached(l: Link, s: C.State) {
    exists m :: Tied(s, m) && Goes(l.world, m.world)
  }

  lemma RoundsReach(states: seq<C.State>, fds: seq<int>, events: seq<C.Revents>, l: Link,
                    keep: nat -> nat, gateway: nat -> bool)
    requires |states| == |fds| + 1 && Reached(l, states[0])
    requires forall k :: 0 <= k < |fds| ==> RoundAt(states, fds, events, k)
    ensures Reached(l, states[|fds|])
  {
    for k := 0 to |fds|
      invariant Reached(l, states[k])
    {
      RoundReaches(states, fds, events, k, l, keep, gateway);
    }
  }

  lemma RoundReaches(states: seq<C.State>, fds: seq<int>, events: seq<C.Revents>, k: nat, l: Link,
                     keep: nat -> nat, gateway: nat -> bool)
    requires k < |fds| && |states| == |fds| + 1 && RoundAt(states, fds, events, k) && Reached(l, states[k])
    ensures Reached(l, states[k + 1])
  {
    var before :| Tied(states[k], before) && Goes(l.world, before.world);
    var m := RoundIsTied(states[k], fds[k], events, k, states[k + 1], before, keep, gateway);
    GoesOn(l.world, before.world, m.world);
  }

  lemma RoundIsTied(s: C.State, fd: int, events: seq<C.Revents>, k: nat, t: C.State, l: Link,
                    keep: nat -> nat, gateway: nat -> bool)
    returns (m: Link)
    requires ServesOn(s, fd, events, k, t) && Tied(s, l)
    ensures Tied(t, m) && Goes(l.world, m.world)
  {
    m := l;
    GoesNowhere(l.world);
    if k < |events| { m := ServeTied(s, fd, events[k], l, keep, gateway); }
  }

  lemma AdmitTied(s: C.State, a: C.Accept, l: Link)
    requires a.Fd? && Tied(s, l)
    ensures Tied(C.Admit(s, a), l)
  {
    var slot := C.FindFree(s.clients);
    if slot >= 0 && a.nonblocking {
      StrangerChanges(s.clients, l.world, l.place.at, l.place.base, slot, C.Fresh(s, a.fd));
    }
  }

  lemma {:induction false} AcceptTied(s: C.State, answers: seq<C.Accept>, l: Link)
    requires Tied(s, l)
    ensures Tied(C.AcceptAll(s, answers), l)
    decreases |answers|
  {
    if answers == [] || answers[0].AcceptAgain? || answers[0].AcceptError? {
    } else if answers[0].AcceptInterrupted? {
      AcceptTied(s, answers[1..], l);
    } else {
      AdmitTied(s, answers[0], l);
      AcceptTied(C.Admit(s, answers[0]), answers[1..], l);
    }
  }

  /** Whatever one pass of the poll loop does, the bridge can do: from any world that mirrors
      the core before it to one that mirrors the core after it. */
  lemma PassIsBridged(s: C.State, p: C.Pass, l: Link, keep: nat -> nat, gateway: nat -> bool) returns (m: Link)
    requires CoreDelivery.Sound(s) && CoreRun.AllSettled(s) && CoreRun.PassOk(s, p) && Tied(s, l)
    ensures Tied(C.PollPass(s, p), m) && Goes(l.world, m.world)
  {
    CoreRun.PolledAreOpen(s.clients);
    var t := if p.listening then C.AcceptAll(s, p.accepts) else s;
    if p.listening {
      CoreRun.AcceptSound(s, p.accepts);
      AcceptTied(s, p.accepts, l);
    }
    var states := RoundsOf(t, C.Polled(s.clients), p.events);
    GoesNowhere(l.world);
    RoundsReach(states, C.Polled(s.clients), p.events, l, keep, gateway);
    m :| Tied(C.PollPass(s, p), m) && Goes(l.world, m.world);
  }

  /** Between passes a gateway session may handle what it has been sent. */
  lemma PumpIsBridged(s: C.State, l: Link, i: nat)
    requires Tied(s, l) && Enabled(l.world, Handle(i))
    ensures Tied(s, Link(Step(l.world, Handle(i)), l.place, l.origins))
  {
    var w, v := l.world, Step(l.world, Handle(i));
    assert Stream(v.sessions[i]) == Stream(w.sessions[i]);
    assert forall k :: 0 <= k < |w.sessions| ==> AtRest(w.sessions[k]) && SameToTheCore(w.sessions[k], v.sessions[k]);
    OwnStepMirrors(s.clients, w, l.place.at, l.place.base, v);
    OwnStepTraced(s, l, v);
  }

  lemma {:induction false} PassesTied(s: C.State, ps: seq<C.Pass>, l: Link, keep: nat -> nat, gateway: nat -> bool)
    returns (m: Link)
    requires CoreDelivery.Sound(s) && CoreRun.AllSettled(s) && CoreRun.RunOk(s, ps) && Tied(s, l)
    ensures Tied(C.Run(s, ps), m) && Goes(l.world, m.world)
    decreases |ps|
  {
    if ps == [] {
      m := l;
      GoesNowhere(l.world);
    } else {
      var front := ps[..|ps| - 1];
      var k := PassesTied(s, front, l, keep, gateway);
      CoreRun.RunSound(s, front);
      m := PassIsBridged(C.Run(s, front), ps[|ps| - 1], k, keep, gateway);
      GoesOn(l.world, k.world, m.world);
    }
  }

  /** Every run of the core is one of the bridge, whoever of its clients comes through the
      gateway and however much a closed connection still gets: a possible run of bridge steps
      ends with the same broadcasts as the core's log, as many deliveries as it has counted,
      and the same connections: the connected sessions are the registered clients, of the same
      names, and have been sent what the core has queued to them since they registered; each
      other session is a connection now closed and has been sent the first part of that. */
  lemma EveryRunIsBridged(maxQueue: nat, calloc: nat -> bool, ps: seq<C.Pass>, keep: nat -> nat, gateway: nat -> bool)
    returns (actions: seq<Action>, l: Link)
    requires CoreRun.RunOk(C.Initial(maxQueue, calloc), ps)
    ensures Possible(actions) && l.world == Run(actions)
    ensures Tied(C.Run(C.Initial(maxQueue, calloc), ps), l)
  {
    CoreRun.InitialSound(maxQueue, calloc);
    NobodyTied(maxQueue, calloc);
    l := PassesTied(C.Initial(maxQueue, calloc), ps, Unlinked(), keep, gateway);
    actions := FromNothing(l.world);
  }

  /** Before anything has happened. */
  function Unlinked(): Link {
    var zeros := seq(C.MAX_CLIENTS, _ => 0);
    Link(Nothing(), Place(zeros, zeros), [])
  }

  lemma NobodyTied(maxQueue: nat, calloc: nat -> bool)
    ensures Tied(C.Initial(maxQueue, calloc), Unlinked())
  {
  }

  lemma FromNothing(w: World) returns (actions: seq<Action>)
    requires Goes(Nothing(), w)
    ensures Possible(actions) && Run(actions) == w
  {
    actions :| Does(Nothing(), actions, w);
    DoesRun([], actions, w);
    assert [] + actions == actions;
  }

  // ---------------------------------------------------------------- the log and the messages saved

  /** The world is one the bridge can reach, and it mirrors the core. */
  ghost predicate Joint(s: C.State, l: Link) {
    Tied(s, l) && exists actions :: Possible(actions) && Run(actions) == l.world
  }

  lemma JointGoesOn(s: C.State, l: Link, r: C.State, m: Link)
    requires Joint(s, l) && Goes(l.world, m.world) && Tied(r, m)
    ensures Joint(r, m)
  {
    var before :| Possible(before) && Run(before) == l.world;
    var actions :| Does(l.world, actions, m.world);
    DoesRun(before, actions, m.world);
  }

  /** They are together at first. */
  lemma JointAtFirst(maxQueue: nat, calloc: nat -> bool)
    ensures Joint(C.Initial(maxQueue, calloc), Unlinked())
    ensures CoreDelivery.Sound(C.Initial(maxQueue, calloc)) && CoreRun.AllSettled(C.Initial(maxQueue, calloc))
  {
    NobodyTied(maxQueue, calloc);
    CoreRun.InitialSound(maxQueue, calloc);
    assert Possible([]) && Run([]) == Nothing();
  }

  /** Core and bridge stay together over passes of the one and rounds of the other's pumps. */
  lemma JointPass(s: C.State, p: C.Pass, l: Link, keep: nat -> nat, gateway: nat -> bool) returns (m: Link)
    requires CoreDelivery.Sound(s) && CoreRun.AllSettled(s) && CoreRun.PassOk(s, p) && Joint(s, l)
    ensures Joint(C.PollPass(s, p), m)
    ensures CoreDelivery.Sound(C.PollPass(s, p)) && CoreRun.AllSettled(C.PollPass(s, p))
  {
    CoreRun.PassSound(s, p);
    m := PassIsBridged(s, p, l, keep, gateway);
    JointGoesOn(s, l, C.PollPass(s, p), m);
  }

  lemma JointPump(s: C.State, l: Link, i: nat)
    requires Joint(s, l) && Enabled(l.world, Handle(i))
    ensures Joint(s, Link(Step(l.world, Handle(i)), l.place, l.origins))
  {
    PumpIsBridged(s, l, i);
    GoesOne(l.world, Handle(i));
    JointGoesOn(s, l, s, Link(Step(l.world, Handle(i)), l.place, l.origins));
  }

  lemma LineIsSaved(s: C.State, actions: seq<Action>, k: nat)
    requires Possible(actions) && BooksAgree(s, Run(actions)) && k < |s.log|
    ensures var w := Run(actions);
            && |ChatRows(w.rows, k)| == Claimants(w, k, |w.sessions|)
            && forall r :: r in ChatRows(w.rows, k) ==>
                 r.message == SavedChat(s.log[k].channel, s.log[k].sender, s.log[k].text)
  {
    var w := Run(actions);
    ChatSavedPerClaimant(actions, k);
    assert LineIs(w.broadcasts[k], s.log[k]);
    forall r | r in ChatRows(w.rows, k)
      ensures r.message == SavedChat(s.log[k].channel, s.log[k].sender, s.log[k].text)
    {
      ChatRowsFrom(w.rows, k, r);
      var n :| 0 <= n < |w.rows| && w.rows[n] == r;
      EveryRowSays(actions, n);
    }
  }

  /** Every line of the core's log is saved as often as there are gateway sessions that have
      handled it under their own name, and as it stands in the log. */
  lemma LogIsSavedPerClaimant(s: C.State, l: Link, k: nat)
    requires Joint(s, l) && k < |s.log|
    ensures k < |l.world.broadcasts|
    ensures |ChatRows(l.world.rows, k)| == Claimants(l.world, k, |l.world.sessions|)
    ensures forall r :: r in ChatRows(l.world.rows, k) ==>
              r.message == SavedChat(s.log[k].channel, s.log[k].sender, s.log[k].text)
  {
    var actions :| Possible(actions) && Run(actions) == l.world;
    LineIsSaved(s, actions, k);
  }

  function Line(log: seq<C.Chat>, t: nat, channel: Bytes): seq<Store.Message> {
    if t < |log| && log[t].channel == channel then [Store.ChannelMessage(channel, log[t].sender, log[t].text)] else []
  }

  /** The lines of the log with these numbers, as far as they are on the channel. */
  function Lines(log: seq<C.Chat>, tags: seq<nat>, channel: Bytes): seq<Store.Message> {
    if tags == [] then []
    else Lines(log, tags[..|tags| - 1], channel) + Line(log, tags[|tags| - 1], channel)
  }

  lemma {:induction false} PostsAreLines(s: C.State, w: World, tags: seq<nat>, channel: Bytes)
    requires BooksAgree(s, w)
    ensures Posts(w.broadcasts, tags, channel) == Lines(s.log, tags, channel)
  {
    if tags != [] {
      PostsAreLines(s, w, tags[..|tags| - 1], channel);
      var t := tags[|tags| - 1];
      if t < |s.log| { assert LineIs(w.broadcasts[t], s.log[t]); }
    }
  }

  lemma HistoryFromTheLog(s: C.State, actions: seq<Action>, ops: seq<Store.Op>, channel: Bytes, limit: nat)
    requires Possible(actions) && BooksAgree(s, Run(actions)) && Store.Log(ops) == Messages(Run(actions).rows)
    ensures ShowsLines(s, Run(actions), ops, channel, limit)
  {
    HistoryShowsEachBroadcastOnce(actions, ops, channel, limit);
    PostsAreLines(s, Run(actions), ChatTags(Run(actions).rows), channel);
  }

  /** channel_history is the last of the lines on the channel that some session has handled as
      its own, none twice unless a gateway session was renamed. */
  predicate ShowsLines(s: C.State, w: World, ops: seq<Store.Op>, channel: Bytes, limit: nat) {
    var tags := ChatTags(w.rows);
    && (forall k :: 0 <= k < |tags| ==> tags[k] < |s.log| && ClaimedBySome(w, tags[k]))
    && (NamesKept(w) ==> Store.Distinct(tags))
    && Store.ChannelHistory(Store.Run(ops), channel, limit) == Store.Last(Lines(s.log, tags, channel), limit)
  }

  predicate ClaimedBySome(w: World, t: nat) {
    t < |w.broadcasts| && exists j :: 0 <= j < |w.sessions| && Claims(w, t, j)
  }

  /** What channel_history shows is a selection from the core's own log. */
  lemma HistoryShowsTheLog(s: C.State, l: Link, ops: seq<Store.Op>, channel: Bytes, limit: nat)
    requires Joint(s, l) && Store.Log(ops) == Messages(l.world.rows)
    ensures ShowsLines(s, l.world, ops, channel, limit)
  {
    var actions :| Possible(actions) && Run(actions) == l.world;
    HistoryFromTheLog(s, actions, ops, channel, limit);
  }
}
