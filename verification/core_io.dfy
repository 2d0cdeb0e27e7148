/** What reading, writing and accepting must achieve, from the answers of the operating
    system alone: who is seated, which bytes are received, when a connection ends and what
    leaves it. */
module CoreIo {
  import opened Bytes
  import opened Wire
  import opened Core
  import opened CoreInvariant
  import opened CoreDelivery
  import opened CoreRun
  import CoreCommands
  import CoreLaws
  import CoreSessions

  // ------------------------------------------------------------------ accepting

  /** The descriptors that accept hands out before it has no more and that could be made
      non-blocking, in order. */
  function Arrivals(answers: seq<Accept>): seq<nat> {
    if answers == [] || answers[0].AcceptAgain? || answers[0].AcceptError? then []
    else (if answers[0].Fd? && answers[0].nonblocking then [answers[0].fd] else []) + Arrivals(answers[1..])
  }

  function FreeCount(clients: seq<Conn>): nat {
    if clients == [] then 0
    else FreeCount(clients[..|clients| - 1]) + (if clients[|clients| - 1].fd < 0 then 1 else 0)
  }

  /** A slot that a newcomer has got: connection number n of all, with nothing said yet. */
  predicate Newcomer(c: Conn, n: nat, fd: nat) {
    && c.fd == fd && c.history.serial == n && !c.registered && c.queue == [] && c.inbuf == []
    && c.history.received == [] && c.history.accepted == [] && c.history.dispatched == []
  }

  /** The first n of the newcomers, and nobody else, have slots that were free, and whoever was
      there is as before. */
  predicate Seated(s: State, r: State, fds: seq<nat>, n: nat) {
    && |r.clients| == |s.clients| && n <= |fds|
    && (forall k :: 0 <= k < n ==> HasSlot(s, r, fds, k))
    && (forall j :: 0 <= j < |s.clients| && s.clients[j].fd >= 0 ==> r.clients[j] == s.clients[j])
    && (forall j :: 0 <= j < |s.clients| && s.clients[j].fd < 0 && r.clients[j].fd >= 0 ==>
          OneOf(r.clients[j], s.stats.total, fds, n))
    && r.stats.total == s.stats.total + n && LiveCount(r.clients) == LiveCount(s.clients) + n
  }

  predicate OneOf(c: Conn, total: nat, fds: seq<nat>, n: nat) {
    && total <= c.history.serial < total + n && c.history.serial - total < |fds|
    && Newcomer(c, c.history.serial, fds[c.history.serial - total])
  }

  predicate HasSlot(s: State, r: State, fds: seq<nat>, k: nat) {
    && k < |fds|
    && exists j :: 0 <= j < |s.clients| && j < |r.clients| && s.clients[j].fd < 0
                   && Newcomer(r.clients[j], s.stats.total + k, fds[k])
  }

  lemma {:induction false} FreeIsNotLive(clients: seq<Conn>)
    ensures FreeCount(clients) == |clients| - LiveCount(clients)
    ensures FindFree(clients) >= 0 <==> FreeCount(clients) > 0
  {
    if clients != [] { FreeIsNotLive(clients[..|clients| - 1]); }
  }

  function Fewer(a: nat, b: nat): nat {
    if a < b then a else b
  }

  lemma NobodySeated(s: State, fds: seq<nat>)
    ensures Seated(s, s, fds, 0)
  {
  }

  lemma SeatSeats(s: State, slot: nat, fd: nat)
    requires slot < |s.clients| && s.clients[slot].fd < 0
    ensures Seated(s, Seat(s, slot, fd), [fd], 1)
  {
    LiveCountUpdate(s.clients, slot, Fresh(s, fd));
    assert Newcomer(Seat(s, slot, fd).clients[slot], s.stats.total + 0, [fd][0]);
  }

  lemma SlotOn(s: State, t: State, r: State, fd: nat, fds: seq<nat>, n: nat, k: nat)
    requires Seated(s, t, [fd], 1) && Seated(t, r, fds, n) && k < n + 1
    ensures HasSlot(s, r, [fd] + fds, k)
  {
    if k == 0 {
      assert HasSlot(s, t, [fd], 0);
      var j :| 0 <= j < |s.clients| && s.clients[j].fd < 0 && Newcomer(t.clients[j], s.stats.total, fd);
      assert Newcomer(r.clients[j], s.stats.total, ([fd] + fds)[0]);
    } else {
      assert HasSlot(t, r, fds, k - 1);
      var j :| 0 <= j < |t.clients| && t.clients[j].fd < 0
               && Newcomer(r.clients[j], t.stats.total + (k - 1), fds[k - 1]);
      assert s.clients[j].fd < 0 && Newcomer(r.clients[j], s.stats.total + k, ([fd] + fds)[k]);
    }
  }

  lemma NewOn(s: State, t: State, r: State, fd: nat, fds: seq<nat>, n: nat, j: nat)
    requires Seated(s, t, [fd], 1) && Seated(t, r, fds, n)
    requires j < |s.clients| && s.clients[j].fd < 0 && r.clients[j].fd >= 0
    ensures OneOf(r.clients[j], s.stats.total, [fd] + fds, n + 1)
  {
    if t.clients[j].fd >= 0 {
      LaterOneOf(t.clients[j], s.stats.total, [fd], 1, fd, fds, n);
    } else {
      LaterOneOf(r.clients[j], t.stats.total, fds, n, fd, fds, n);
    }
  }

  /** Who is among the first or among the later ones is among all of them. */
  lemma LaterOneOf(c: Conn, total: nat, some: seq<nat>, m: nat, fd: nat, fds: seq<nat>, n: nat)
    requires OneOf(c, total, some, m)
    requires (some == [fd] && m == 1) || (some == fds && m == n && total > 0)
    ensures some == [fd] && m == 1 ==> OneOf(c, total, [fd] + fds, n + 1)
    ensures some == fds && m == n && total > 0 ==> OneOf(c, total - 1, [fd] + fds, n + 1)
  {
    var k := c.history.serial - total;
    assert some == fds ==> ([fd] + fds)[k + 1] == fds[k];
    assert some == [fd] ==> k == 0;
  }

  lemma SeatedOn(s: State, t: State, r: State, fd: nat, fds: seq<nat>, n: nat)
    requires Seated(s, t, [fd], 1) && Seated(t, r, fds, n)
    ensures Seated(s, r, [fd] + fds, n + 1)
  {
    forall k | 0 <= k < n + 1 ensures HasSlot(s, r, [fd] + fds, k) {
      SlotOn(s, t, r, fd, fds, n, k);
    }
    forall j | 0 <= j < |s.clients| && s.clients[j].fd < 0 && r.clients[j].fd >= 0
      ensures OneOf(r.clients[j], s.stats.total, [fd] + fds, n + 1)
    {
      NewOn(s, t, r, fd, fds, n, j);
    }
  }

  lemma OneMoreSeated(s: State, t: State, r: State, fd: nat, fds: seq<nat>)
    requires Seated(s, t, [fd], 1) && Seated(t, r, fds, Fewer(|fds|, FreeCount(t.clients)))
    ensures Seated(s, r, [fd] + fds, Fewer(|fds| + 1, FreeCount(s.clients)))
  {
    FreeIsNotLive(s.clients);
    FreeIsNotLive(t.clients);
    SeatedOn(s, t, r, fd, fds, Fewer(|fds|, FreeCount(t.clients)));
  }

  lemma NobodyMore(s: State, r: State, fds: seq<nat>, more: seq<nat>)
    requires Seated(s, r, fds, 0)
    ensures Seated(s, r, more, 0)
  {
    forall j | 0 <= j < |s.clients| && s.clients[j].fd < 0 ensures r.clients[j].fd < 0 {
      assert r.clients[j].fd >= 0 ==> OneOf(r.clients[j], s.stats.total, fds, 0);
    }
  }

  /** AcceptAll and Arrivals by the first answer. */
  lemma FirstAnswer(s: State, answers: seq<Accept>)
    requires answers != [] && !answers[0].AcceptAgain? && !answers[0].AcceptError?
    ensures answers[0].Fd? ==> AcceptAll(s, answers) == AcceptAll(Admit(s, answers[0]), answers[1..])
    ensures answers[0].AcceptInterrupted? ==> AcceptAll(s, answers) == AcceptAll(s, answers[1..])
    ensures Arrivals(answers) == (if answers[0].Fd? && answers[0].nonblocking then [answers[0].fd] else [])
                                 + Arrivals(answers[1..])
  {
  }

  lemma AdmittedSeats(s: State, a: Accept, fds: seq<nat>, r: State)
    requires a.Fd? && a.nonblocking
    requires var t := Admit(s, a); Seated(t, r, fds, Fewer(|fds|, FreeCount(t.clients)))
    ensures Seated(s, r, [a.fd] + fds, Fewer(|fds| + 1, FreeCount(s.clients)))
  {
    FreeIsNotLive(s.clients);
    if FindFree(s.clients) >= 0 {
      SeatSeats(s, FindFree(s.clients), a.fd);
      OneMoreSeated(s, Admit(s, a), r, a.fd, fds);
    } else {
      NobodyMore(s, r, fds, [a.fd] + fds);
    }
  }

  /** Exactly the first arrivals are seated, in order, as many as there are free slots: each
      in a slot that was free, counted once; everybody who was there stays as they were. */
  lemma {:induction false} AcceptSeats(s: State, answers: seq<Accept>)
    ensures var fds := Arrivals(answers);
      Seated(s, AcceptAll(s, answers), fds, Fewer(|fds|, FreeCount(s.clients)))
    decreases |answers|
  {
    if answers == [] || answers[0].AcceptAgain? || answers[0].AcceptError? {
      NobodySeated(s, []);
    } else {
      FirstAnswer(s, answers);
      var later := Arrivals(answers[1..]);
      if answers[0].AcceptInterrupted? || !answers[0].nonblocking {
        AcceptSeats(s, answers[1..]);
        assert [] + later == later;
      } else {
        AcceptSeats(Admit(s, answers[0]), answers[1..]);
        AdmittedSeats(s, answers[0], later, AcceptAll(s, answers));
      }
    }
  }

  // ---------------------------------------------------------------- bystanders

  /** One client is worked on: it goes on as the same connection or is gone, the others at
      most get frames or are dropped, and whoever has gone is among the connections closed. */
  ghost predicate WorkedOn(s: State, i: nat, r: State) {
    && |r.clients| == |s.clients| && s.closed <= r.closed && Traced(s, r)
    && forall j :: 0 <= j < |s.clients| ==> r.clients[j] == Blank() || Goes(s.clients[j], r.clients[j], j == i)
  }

  predicate Goes(c: Conn, d: Conn, own: bool) {
    && d.fd == c.fd >= 0 && d.history.serial == c.history.serial
    && c.history.received <= d.history.received && c.history.sent <= d.history.sent
    && c.history.accepted <= d.history.accepted
    && (!own ==> SameConnection(c, d))
  }

  lemma WorkedOnTrans(s: State, i: nat, t: State, r: State)
    requires WorkedOn(s, i, t) && WorkedOn(t, i, r)
    ensures WorkedOn(s, i, r)
  {
    forall j | 0 <= j < |s.clients| && s.clients[j].fd >= 0 && r.clients[j].fd < 0
      ensures Recorded(s.clients[j].history.serial, s.closed, r.closed)
    {
      RecordedOn(s.clients[j].history.serial, s.closed, t.closed, r.closed);
    }
    forall j | 0 <= j < |s.clients| && r.clients[j] != Blank() ensures Goes(s.clients[j], r.clients[j], j == i) {
      assert Goes(t.clients[j], r.clients[j], j == i) && Goes(s.clients[j], t.clients[j], j == i);
    }
  }

  lemma CalmWorks(s: State, i: nat, r: State)
    requires Calm(s, r)
    ensures WorkedOn(s, i, r)
  {
    forall j | 0 <= j < |s.clients| && r.clients[j] != Blank() ensures Goes(s.clients[j], r.clients[j], j == i) {
      assert SameConnection(s.clients[j], r.clients[j]);
    }
  }

  lemma OwnWorks(s: State, i: nat, d: Conn)
    requires ClientsOk(s) && Live(s, i) && Goes(s.clients[i], d, true)
    ensures WorkedOn(s, i, Update(s, i, d))
  {
  }

  lemma DispatchWorks(s: State, i: nat)
    requires Sound(s) && Live(s, i) && SettledBut(s, i)
    requires Draining(s.clients[i]) && FrameReady(s.clients[i].inbuf)
    ensures WorkedOn(s, i, Dispatch(s, i, FirstFrame(s.clients[i].inbuf)))
  {
    var f := FirstFrame(s.clients[i].inbuf);
    var t := Dispatching(s, i, f);
    DispatchingSound(s, i);
    OwnWorks(s, i, t.clients[i]);
    CoreCommands.HandleFrameSound(t, i, f);
    CalmWorks(t, i, HandleFrame(t, i, f));
    WorkedOnTrans(s, i, t, HandleFrame(t, i, f));
  }

  lemma RoundWorks(s: State, i: nat)
    requires Sound(s) && Live(s, i) && SettledBut(s, i)
    requires Draining(s.clients[i]) && FrameReady(s.clients[i].inbuf)
    requires Live(Dispatch(s, i, FirstFrame(s.clients[i].inbuf)), i)
    ensures var b := s.clients[i].inbuf;
            WorkedOn(s, i, Consume(Dispatch(s, i, FirstFrame(b)), i, AfterFirst(b)))
  {
    var b := s.clients[i].inbuf;
    var t := Dispatch(s, i, FirstFrame(b));
    DispatchWorks(s, i);
    DispatchSound(s, i);
    OwnWorks(t, i, t.clients[i].(inbuf := AfterFirst(b)));
    WorkedOnTrans(s, i, t, Consume(t, i, AfterFirst(b)));
  }

  lemma {:induction false} DrainWorks(s: State, i: nat)
    requires Sound(s) && Live(s, i) && SettledBut(s, i) && Draining(s.clients[i])
    ensures WorkedOn(s, i, Drain(s, i).state)
    decreases |s.clients[i].inbuf|
  {
    var b := s.clients[i].inbuf;
    if Malformed(b) {
      CoreCommands.SaySound(CountMalformed(s), i, ERROR, "malformed frame");
      CalmWorks(CountMalformed(s), i, Drain(s, i).state);
    } else if !FrameReady(b) {
      CalmStays(s);
      CalmWorks(s, i, s);
    } else if !Live(Dispatch(s, i, FirstFrame(b)), i) {
      DispatchWorks(s, i);
    } else {
      DrainRound(s, i);
      RoundWorks(s, i);
      var u := Consume(Dispatch(s, i, FirstFrame(b)), i, AfterFirst(b));
      DrainWorks(u, i);
      WorkedOnTrans(s, i, u, Drain(u, i).state);
    }
  }

  // -------------------------------------------------------------------- reading

  /** The bytes recv delivers before it has no more for now, or the stream ends. */
  function Arrived(answers: seq<Recv>): Bytes {
    if answers == [] || answers[0].RecvAgain? || answers[0].RecvError? || answers[0] == Data([]) then []
    else (if answers[0].Data? then answers[0].bytes else []) + Arrived(answers[1..])
  }

  /** recv reports the end of the stream, or an error, before it has no more for now. */
  predicate Ends(answers: seq<Recv>) {
    && answers != []
    && !answers[0].RecvAgain?
    && (answers[0].RecvError? || answers[0] == Data([]) || Ends(answers[1..]))
  }

  lemma ArrivedSplits(answers: seq<Recv>, n: nat)
    requires answers != [] && answers[0].Data? && 0 < n <= |answers[0].bytes|
    ensures Arrived(answers) == answers[0].bytes[..n] + Arrived(Later(answers, n))
    ensures Ends(answers) == Ends(Later(answers, n))
  {
    var b := answers[0].bytes;
    if n < |b| {
      var l := [Data(b[n..])] + answers[1..];
      assert l[1..] == answers[1..];
      assert b == b[..n] + b[n..];
      assert b[..n] + (b[n..] + Arrived(answers[1..])) == b + Arrived(answers[1..]);
    } else {
      assert b[..n] == b;
    }
  }

  /** One chunk handled: the client has received it, or is gone; draining stops in front of
      an incomplete frame, or of a malformed header and then reports it. */
  ghost predicate ChunkDone(s: State, i: nat, chunk: Bytes, d: Outcome)
    requires i < |s.clients|
  {
    && Sound(d.state) && AllSettled(d.state) && WorkedOn(s, i, d.state)
    && (d.ok ==> Live(d.state, i) && !Malformed(d.state.clients[i].inbuf))
    && (Live(d.state, i) ==>
          && d.state.clients[i].history.received == s.clients[i].history.received + chunk
          && (!d.ok ==> Malformed(d.state.clients[i].inbuf)))
  }

  lemma ChunkWorks(s: State, i: nat, chunk: Bytes)
    requires Sound(s) && AllSettled(s) && Live(s, i) && |s.clients[i].inbuf| + |chunk| <= INBUF_CAP
    ensures ChunkDone(s, i, chunk, Drain(Append(s, i, chunk), i))
  {
    var t := Append(s, i, chunk);
    AppendSound(s, i, chunk);
    OwnWorks(s, i, t.clients[i]);
    DrainSound(t, i);
    DrainWorks(t, i);
    WorkedOnTrans(s, i, t, Drain(t, i).state);
    if Drain(t, i).ok { CoreLaws.DrainLeavesNoHeader(t, i); }
  }

  /** What reading must have achieved: a client that is still there has received all that
      arrived and its stream has not ended, or it has a malformed header in front, behind
      which the core reads no further in this pass. */
  ghost predicate ReadAll(s: State, i: nat, answers: seq<Recv>, r: State)
    requires i < |s.clients|
  {
    && Sound(r) && AllSettled(r) && WorkedOn(s, i, r)
    && (Live(r, i) ==>
          var had, has := s.clients[i].history.received, r.clients[i].history.received;
          || (!Ends(answers) && has == had + Arrived(answers))
          || (Malformed(r.clients[i].inbuf) && had < has <= had + Arrived(answers)))
  }

  lemma CloseWorks(s: State, i: nat, why: Reason)
    requires Sound(s) && AllSettled(s) && Live(s, i) && why != Overflow
    ensures var r := Reset(s, i, why); Sound(r) && AllSettled(r) && WorkedOn(s, i, r) && !Live(r, i)
  {
    CloseSound(s, i, why);
    ResetSound(s, i, why);
    CalmWorks(s, i, Reset(s, i, why));
  }

  lemma ChunkThenRest(s: State, i: nat, answers: seq<Recv>, n: nat, t: State, r: State)
    requires Live(s, i) && answers != [] && answers[0].Data? && 0 < n <= |answers[0].bytes|
    requires ChunkDone(s, i, answers[0].bytes[..n], Outcome(t, true)) && ReadAll(t, i, Later(answers, n), r)
    ensures ReadAll(s, i, answers, r)
  {
    ArrivedSplits(answers, n);
    WorkedOnTrans(s, i, t, r);
    PrefixSplits(s.clients[i].history.received, answers[0].bytes[..n], Arrived(Later(answers, n)));
  }

  lemma ChunkThenStop(s: State, i: nat, answers: seq<Recv>, n: nat, t: State)
    requires Live(s, i) && answers != [] && answers[0].Data? && 0 < n <= |answers[0].bytes|
    requires ChunkDone(s, i, answers[0].bytes[..n], Outcome(t, false))
    ensures ReadAll(s, i, answers, t)
  {
    ArrivedSplits(answers, n);
    PrefixSplits(s.clients[i].history.received, answers[0].bytes[..n], Arrived(Later(answers, n)));
  }

  /** Every other answer but EINTR ends the reading. */
  lemma ReadOver(s: State, i: nat, answers: seq<Recv>)
    requires Sound(s) && AllSettled(s) && Live(s, i) && !HasRead(s, i, answers)
    requires |s.clients[i].inbuf| < INBUF_CAP && answers != [] ==> !answers[0].RecvInterrupted?
    ensures ReadAll(s, i, answers, ReadFrom(s, i, answers))
  {
    if |s.clients[i].inbuf| >= INBUF_CAP {
      CloseWorks(s, i, BufferFull);
    } else if answers == [] || answers[0].RecvAgain? {
      NothingWorks(s, i, answers);
    } else if answers[0].RecvError? {
      CloseWorks(s, i, RecvFailed);
    } else {
      CloseWorks(s, i, PeerClosed);
    }
  }

  lemma NothingWorks(s: State, i: nat, answers: seq<Recv>)
    requires Sound(s) && AllSettled(s) && Live(s, i) && (answers == [] || answers[0].RecvAgain?)
    ensures ReadAll(s, i, answers, s)
  {
    CalmStays(s);
    CalmWorks(s, i, s);
  }

  lemma ReadOn(s: State, i: nat, answers: seq<Recv>, n: nat)
    requires Sound(s) && AllSettled(s) && Live(s, i) && HasRead(s, i, answers)
    requires n == Min(|answers[0].bytes|, INBUF_CAP - |s.clients[i].inbuf|)
    requires var d, later := Drain(Append(s, i, answers[0].bytes[..n]), i), Later(answers, n);
             d.ok ==> i < |d.state.clients| && ReadAll(d.state, i, later, ReadFrom(d.state, i, later))
    ensures ReadAll(s, i, answers, ReadFrom(s, i, answers))
  {
    var d := Drain(Append(s, i, answers[0].bytes[..n]), i);
    ReadFromChunk(s, i, answers, n);
    ChunkWorks(s, i, answers[0].bytes[..n]);
    if d.ok {
      ChunkThenRest(s, i, answers, n, d.state, ReadFrom(d.state, i, Later(answers, n)));
    } else {
      ChunkThenStop(s, i, answers, n, d.state);
    }
  }

  lemma ReadSkips(s: State, i: nat, answers: seq<Recv>)
    requires Live(s, i) && |s.clients[i].inbuf| < INBUF_CAP && answers != [] && answers[0].RecvInterrupted?
    requires ReadAll(s, i, answers[1..], ReadFrom(s, i, answers[1..]))
    ensures ReadAll(s, i, answers, ReadFrom(s, i, answers))
  {
    ReadAgain(s, i, answers);
    assert [] + Arrived(answers[1..]) == Arrived(answers[1..]);
  }

  /** Reading receives everything that arrives, and ends the connection when the stream has
      ended; only behind a malformed header it may stop earlier. */
  lemma {:induction false} ReadOutcome(s: State, i: nat, answers: seq<Recv>)
    requires Sound(s) && AllSettled(s) && Live(s, i)
    ensures ReadAll(s, i, answers, ReadFrom(s, i, answers))
    decreases |answers|, if answers != [] && answers[0].Data? then |answers[0].bytes| else 0
  {
    if HasRead(s, i, answers) {
      var n := Min(|answers[0].bytes|, INBUF_CAP - |s.clients[i].inbuf|);
      var d := Drain(Append(s, i, answers[0].bytes[..n]), i);
      ChunkWorks(s, i, answers[0].bytes[..n]);
      if d.ok { ReadOutcome(d.state, i, Later(answers, n)); }
      ReadOn(s, i, answers, n);
    } else if |s.clients[i].inbuf| < INBUF_CAP && answers != [] && answers[0].RecvInterrupted? {
      ReadOutcome(s, i, answers[1..]);
      ReadSkips(s, i, answers);
    } else {
      ReadOver(s, i, answers);
    }
  }

  // ------------------------------------------------- reading, frame by frame

  /** One frame handled, and the buffer as it is afterwards. */
  function HandledOne(s: State, i: nat, f: Frame, left: Bytes): State
    requires Live(s, i)
  {
    var c := s.clients[i];
    var h := c.history.(dispatched := c.history.dispatched + [f]);
    var u := HandleFrame(s.(clients := s.clients[i := c.(history := h)]), i, f);
    if Live(u, i) then u.(clients := u.clients[i := u.clients[i].(inbuf := left)]) else u
  }

  /** Frames handled in order while the client is there; what is then still in the buffer are
      the frames not yet handled, and the rest. */
  function Handled(s: State, i: nat, fs: seq<Frame>, rest: Bytes): State
    requires Encodable(fs)
    decreases |fs|
  {
    if fs == [] || !Live(s, i) then s
    else Handled(HandledOne(s, i, fs[0], EncodeAll(fs[1..]) + rest), i, fs[1..], rest)
  }

  /** The end of draining: a malformed header in front is counted and reported. */
  function Reported(t: State, i: nat, rest: Bytes): Outcome {
    if !Live(t, i) then Outcome(t, false)
    else if !Malformed(rest) then Outcome(t, true)
    else
      var u := t.(stats := t.stats.(malformed := t.stats.malformed + 1));
      Outcome(Deliver(u, i, Frame(ERROR, Ascii("malformed frame"))), false)
  }

  /** What handling the bytes in the buffer amounts to: the frames they hold, one after the
      other, and then a report if a malformed header is in front. */
  function Worked(s: State, i: nat, p: Parsed): Outcome
    requires Encodable(p.frames)
  {
    Reported(Handled(s, i, p.frames, p.rest), i, p.rest)
  }

  lemma HandledNext(s: State, i: nat, fs: seq<Frame>, rest: Bytes, left: Bytes)
    requires Encodable(fs) && fs != [] && Live(s, i) && left == EncodeAll(fs[1..]) + rest
    ensures Handled(s, i, fs, rest) == Handled(HandledOne(s, i, fs[0], left), i, fs[1..], rest)
  {
  }

  lemma WorkedNext(s: State, i: nat)
    requires Live(s, i) && FrameReady(s.clients[i].inbuf)
    ensures var b := s.clients[i].inbuf;
      && Encodable(Parse(b).frames) && Encodable(Parse(AfterFirst(b)).frames)
      && Worked(s, i, Parse(b)) == Worked(HandledOne(s, i, FirstFrame(b), AfterFirst(b)), i, Parse(AfterFirst(b)))
  {
    var b := s.clients[i].inbuf;
    ParseReencodes(b);
    ParseReencodes(AfterFirst(b));
    assert Parse(b).frames == [FirstFrame(b)] + Parse(AfterFirst(b)).frames;
    HandledNext(s, i, Parse(b).frames, Parse(b).rest, AfterFirst(b));
  }

  lemma DrainNext(s: State, i: nat)
    requires Live(s, i) && FrameReady(s.clients[i].inbuf)
    ensures var b := s.clients[i].inbuf;
      var u := HandledOne(s, i, FirstFrame(b), AfterFirst(b));
      Drain(s, i) == if Live(u, i) then Drain(u, i) else Outcome(u, false)
  {
  }

  /** Draining handles exactly the frames of the parse, in order, each once, until the client
      is gone, and reports a malformed header once. */
  lemma {:induction false} DrainOutcome(s: State, i: nat)
    requires Live(s, i)
    ensures Encodable(Parse(s.clients[i].inbuf).frames)
    ensures Drain(s, i) == Worked(s, i, Parse(s.clients[i].inbuf))
    decreases |s.clients[i].inbuf|
  {
    var b := s.clients[i].inbuf;
    ParseReencodes(b);
    if FrameReady(b) {
      var u := HandledOne(s, i, FirstFrame(b), AfterFirst(b));
      WorkedNext(s, i);
      DrainNext(s, i);
      if Live(u, i) { DrainOutcome(u, i); }
    } else {
      DrainedNow(s, i);
    }
  }

  lemma DrainedNow(s: State, i: nat)
    requires Live(s, i) && !FrameReady(s.clients[i].inbuf)
    ensures Parse(s.clients[i].inbuf) == Parsed([], s.clients[i].inbuf)
    ensures Drain(s, i) == Worked(s, i, Parsed([], s.clients[i].inbuf))
  {
  }

  /** The connection of slot i is closed for that reason, and nothing else happens. */
  predicate ClosedFor(s: State, i: nat, why: Reason, r: State)
    requires i < |s.clients|
  {
    && r.clients == s.clients[i := Blank()] && r.closed == s.closed + [Closed(s.clients[i].history, why)]
    && r.channels == s.channels && r.log == s.log && r.allocations == s.allocations
  }

  /** A chunk there is room for is appended and worked off; reading goes on when the client is
      still there and no malformed header is in front. */
  lemma ChunkIsWorked(s: State, i: nat, chunk: Bytes, more: seq<Recv>)
    requires Live(s, i) && |s.clients[i].inbuf| < INBUF_CAP
    requires chunk != [] && |s.clients[i].inbuf| + |chunk| <= INBUF_CAP
    ensures var c := s.clients[i];
      var h := c.history.(received := c.history.received + chunk);
      var t := s.(clients := s.clients[i := c.(inbuf := c.inbuf + chunk, history := h)]);
      && Encodable(Parse(c.inbuf + chunk).frames)
      && var d := Worked(t, i, Parse(c.inbuf + chunk));
      ReadFrom(s, i, [Data(chunk)] + more) == if d.ok && Live(d.state, i) then ReadFrom(d.state, i, more) else d.state
  {
    var answers := [Data(chunk)] + more;
    ReadFromChunk(s, i, answers, |chunk|);
    DrainOutcome(Append(s, i, chunk), i);
    assert chunk[..|chunk|] == chunk && answers[1..] == more;
  }

  /** More than there is room for is read in two goes. */
  lemma LongChunk(s: State, i: nat, a: Bytes, b: Bytes, more: seq<Recv>)
    requires Live(s, i) && a != [] && b != [] && |s.clients[i].inbuf| + |a| == INBUF_CAP
    ensures ReadFrom(s, i, [Data(a + b)] + more) == ReadFrom(s, i, [Data(a), Data(b)] + more)
  {
    var long, short := [Data(a + b)] + more, [Data(a), Data(b)] + more;
    ReadFromChunk(s, i, long, |a|);
    ReadFromChunk(s, i, short, |a|);
    assert (a + b)[..|a|] == a && a[..|a|] == a && (a + b)[|a|..] == b;
    assert Later(long, |a|) == Later(short, |a|);
  }

  /** What ends the reading. With room in the buffer: nothing more for now, which changes
      nothing; the end of the stream, or an error, which closes the connection. A full buffer
      closes it whatever recv would say. */
  lemma ReadStops(s: State, i: nat, more: seq<Recv>)
    requires Live(s, i)
    ensures |s.clients[i].inbuf| < INBUF_CAP ==>
      && ReadFrom(s, i, []) == s && ReadFrom(s, i, [RecvAgain] + more) == s
      && ReadFrom(s, i, [RecvInterrupted] + more) == ReadFrom(s, i, more)
      && ClosedFor(s, i, PeerClosed, ReadFrom(s, i, [Data([])] + more))
      && ClosedFor(s, i, RecvFailed, ReadFrom(s, i, [RecvError] + more))
    ensures |s.clients[i].inbuf| >= INBUF_CAP ==> ClosedFor(s, i, BufferFull, ReadFrom(s, i, more))
  {
    assert ([RecvInterrupted] + more)[1..] == more;
  }

  // -------------------------------------------------------------------- writing

  /** What is left to send of each queued frame. */
  function Remaining(q: seq<Queued>): seq<nat> {
    if q == [] then [] else [|q[0].data| - Min(q[0].sent, |q[0].data|)] + Remaining(q[1..])
  }

  /** How many bytes send takes when it is offered one frame after the other. */
  function Sends(lefts: seq<nat>, answers: seq<Send>): nat
    decreases |answers|
  {
    if lefts == [] || answers == [] || answers[0].SendAgain? || answers[0].SendError? then 0
    else if answers[0].SendInterrupted? then Sends(lefts, answers[1..])
    else if answers[0].count < lefts[0] then
      if answers[0].count == 0 then 0
      else answers[0].count + Sends([lefts[0] - answers[0].count] + lefts[1..], answers[1..])
    else lefts[0] + Sends(lefts[1..], answers[1..])
  }

  /** Whether it fails on the way, or takes nothing, with something left to send. */
  predicate SendFails(lefts: seq<nat>, answers: seq<Send>)
    decreases |answers|
  {
    && lefts != [] && answers != [] && !answers[0].SendAgain?
    && if answers[0].SendInterrupted? then SendFails(lefts, answers[1..])
       else if answers[0].SendError? || answers[0].count == 0 then true
       else if answers[0].count < lefts[0] then
         SendFails([lefts[0] - answers[0].count] + lefts[1..], answers[1..])
       else SendFails(lefts[1..], answers[1..])
  }

  /** The same connection after send has taken n more bytes. */
  predicate Sent(c: Conn, d: Conn, n: nat) {
    && n <= |Unsent(c.queue)|
    && d.history == c.history.(sent := c.history.sent + Unsent(c.queue)[..n])
    && Unsent(d.queue) == Unsent(c.queue)[n..]
    && d.fd == c.fd && d.inbuf == c.inbuf && CoreSessions.SameSession(c, d)
  }

  lemma SentOn(c: Conn, d: Conn, e: Conn, m: nat, n: nat)
    requires Sent(c, d, m) && Sent(d, e, n)
    ensures Sent(c, e, m + n)
  {
    var u := Unsent(c.queue);
    assert u[..m + n] == u[..m] + u[m..][..n];
    assert u[m + n..] == u[m..][n..];
    ConcatAssociates(c.history.sent, u[..m], u[m..][..n]);
  }

  lemma ProgressSends(maxQueue: nat, c: Conn, count: nat)
    requires QueueOk(maxQueue, c) && c.queue != [] && 0 < count
    ensures var lefts := Remaining(c.queue);
      var n := Fewer(count, lefts[0]);
      && 0 < lefts[0] == |c.queue[0].data| - c.queue[0].sent
      && Sent(c, Progress(c, n), n) && QueueOk(maxQueue, Progress(c, n))
      && Remaining(Progress(c, n).queue) == if n < lefts[0] then [lefts[0] - n] + lefts[1..] else lefts[1..]
  {
    var n := Fewer(count, |c.queue[0].data| - c.queue[0].sent);
    UnsentAfter(c, n);
    QueueAfter(maxQueue, c, n);
    var q := c.queue[0];
    assert Unsent(c.queue)[..n] == q.data[q.sent..q.sent + n];
    if n < |q.data| - q.sent { assert Progress(c, n).queue[1..] == c.queue[1..]; }
  }

  /** What writing must have achieved: exactly those bytes of what was left have been taken,
      in order, and the connection is closed exactly if send failed after them. */
  predicate Flushed(s: State, i: nat, answers: seq<Send>, r: State)
    requires i < |s.clients|
  {
    var c, lefts := s.clients[i], Remaining(s.clients[i].queue);
    && Sends(lefts, answers) <= |Unsent(c.queue)|
    && |r.clients| == |s.clients| && r.clients == s.clients[i := r.clients[i]]
    && r.log == s.log && r.channels == s.channels && r.allocations == s.allocations
    && if SendFails(lefts, answers) then
         var h := c.history.(sent := c.history.sent + Unsent(c.queue)[..Sends(lefts, answers)]);
         r.clients[i] == Blank() && r.closed == s.closed + [Closed(h, SendFailed)]
       else
         Sent(c, r.clients[i], Sends(lefts, answers)) && r.closed == s.closed
  }

  lemma NothingWritten(s: State, i: nat, answers: seq<Send>)
    requires Live(s, i) && Sends(Remaining(s.clients[i].queue), answers) == 0
    requires !SendFails(Remaining(s.clients[i].queue), answers)
    ensures Flushed(s, i, answers, s)
  {
  }

  /** For every script of answers writing does exactly that. */
  lemma {:induction false} WriteOutcome(s: State, i: nat, answers: seq<Send>)
    requires Live(s, i) && QueueOk(s.maxQueue, s.clients[i])
    ensures Flushed(s, i, answers, WriteTo(s, i, answers))
    decreases |answers|
  {
    var c := s.clients[i];
    if c.queue == [] || answers == [] || answers[0].SendAgain? {
      NothingWritten(s, i, answers);
    } else if answers[0].SendInterrupted? {
      WriteOutcome(s, i, answers[1..]);
    } else if answers[0].SendError? || answers[0].count == 0 {
      assert Unsent(c.queue)[..0] == [] && c.history.sent + [] == c.history.sent;
    } else {
      var t := Wrote(s, i, answers[0].count);
      WroteKeeps(s, i, answers[0].count);
      WriteOutcome(t, i, answers[1..]);
      WriteGoesOn(s, i, answers);
      MoreWritten(s, i, answers, WriteTo(t, i, answers[1..]));
    }
  }

  lemma WroteKeeps(s: State, i: nat, count: nat)
    requires Live(s, i) && QueueOk(s.maxQueue, s.clients[i]) && s.clients[i].queue != [] && 0 < count
    ensures var n, t := Fewer(count, Remaining(s.clients[i].queue)[0]), Wrote(s, i, count);
      && t == Update(s, i, t.clients[i]) && Live(t, i) && QueueOk(t.maxQueue, t.clients[i])
      && Sent(s.clients[i], t.clients[i], n)
      && Remaining(t.clients[i].queue) ==
         var lefts := Remaining(s.clients[i].queue); if n < lefts[0] then [lefts[0] - n] + lefts[1..] else lefts[1..]
  {
    ProgressSends(s.maxQueue, s.clients[i], count);
  }

  lemma MoreWritten(s: State, i: nat, answers: seq<Send>, r: State)
    requires Live(s, i) && QueueOk(s.maxQueue, s.clients[i]) && s.clients[i].queue != []
    requires answers != [] && answers[0].Took? && answers[0].count > 0
    requires Flushed(Wrote(s, i, answers[0].count), i, answers[1..], r)
    ensures Flushed(s, i, answers, r)
  {
    var n := Fewer(answers[0].count, Remaining(s.clients[i].queue)[0]);
    WroteKeeps(s, i, answers[0].count);
    WrittenOn(s, i, answers, Wrote(s, i, answers[0].count), r, n);
  }

  lemma WrittenOn(s: State, i: nat, answers: seq<Send>, t: State, r: State, n: nat)
    requires Live(s, i) && s.clients[i].queue != [] && answers != [] && answers[0].Took? && answers[0].count > 0
    requires n == Fewer(answers[0].count, Remaining(s.clients[i].queue)[0])
    requires |t.clients| == |s.clients| && t.clients == s.clients[i := t.clients[i]] && t.closed == s.closed
    requires t.log == s.log && t.channels == s.channels && t.allocations == s.allocations
    requires Sent(s.clients[i], t.clients[i], n)
    requires var lefts := Remaining(s.clients[i].queue);
             Remaining(t.clients[i].queue) == if n < lefts[0] then [lefts[0] - n] + lefts[1..] else lefts[1..]
    requires Flushed(t, i, answers[1..], r)
    ensures Flushed(s, i, answers, r)
  {
    var c, d := s.clients[i], t.clients[i];
    var m := Sends(Remaining(d.queue), answers[1..]);
    SendsOne(Remaining(c.queue), answers, n, Remaining(d.queue));
    assert r.clients == t.clients[i := r.clients[i]] == s.clients[i := r.clients[i]];
    assert Unsent(d.queue) == Unsent(c.queue)[n..] && n + m <= |Unsent(c.queue)|;
    if SendFails(Remaining(c.queue), answers) {
      TakesSplit(c.history.sent, Unsent(c.queue), n, m);
    } else {
      SentOn(c, d, r.clients[i], n, m);
    }
  }

  lemma SendsOne(lefts: seq<nat>, answers: seq<Send>, n: nat, later: seq<nat>)
    requires lefts != [] && answers != [] && answers[0].Took? && answers[0].count > 0
    requires n == Fewer(answers[0].count, lefts[0])
    requires later == if n < lefts[0] then [lefts[0] - n] + lefts[1..] else lefts[1..]
    ensures Sends(lefts, answers) == n + Sends(later, answers[1..])
    ensures SendFails(lefts, answers) == SendFails(later, answers[1..])
  {
  }

  lemma TakesSplit(sent: Bytes, u: Bytes, n: nat, m: nat)
    requires n + m <= |u|
    ensures sent + u[..n + m] == sent + u[..n] + u[n..][..m]
  {
    assert u[..n + m] == u[..n] + u[n..][..m];
    ConcatAssociates(sent, u[..n], u[n..][..m]);
  }

  // ---------------------------------------------------------------- the poll loop

  /** The work on one report: an error closes the connection; otherwise it is read from if
      readable, and written to if writable and still there. */
  ghost predicate ServedAs(s: State, i: nat, ev: Revents, r: State)
    requires i < |s.clients|
  {
    if ev.error then ClosedFor(s, i, PollError, r)
    else
      var t := if ev.readable then ReadFrom(s, i, ev.recvs) else s;
      (ev.readable ==> ReadAll(s, i, ev.recvs, t)) && WrittenIf(t, i, ev, r)
  }

  predicate WrittenIf(t: State, i: nat, ev: Revents, r: State) {
    i < |t.clients| && if Live(t, i) && ev.writable then Flushed(t, i, ev.sends, r) else SameState(t, r)
  }

  predicate SameState(t: State, r: State) {
    r.clients == t.clients && r.closed == t.closed && r.log == t.log && r.channels == t.channels
  }

  lemma FlushedWorks(s: State, i: nat, answers: seq<Send>, r: State)
    requires Sound(s) && Live(s, i) && Flushed(s, i, answers, r)
    ensures WorkedOn(s, i, r)
  {
    if SendFails(Remaining(s.clients[i].queue), answers) {
      assert r.closed[|s.closed|].history.serial == s.clients[i].history.serial;
    }
    forall j | 0 <= j < |s.clients| && r.clients[j] != Blank() ensures Goes(s.clients[j], r.clients[j], j == i) {
      assert j != i ==> r.clients[j] == s.clients[j];
    }
  }

  lemma NobodyWorks(s: State, i: nat)
    requires ClientsOk(s)
    ensures WorkedOn(s, i, s)
  {
    CalmStays(s);
    CalmWorks(s, i, s);
  }

  /** One report is served as it should be. */
  lemma ServeOutcome(s: State, i: nat, ev: Revents)
    requires Sound(s) && AllSettled(s) && Live(s, i)
    ensures var r := Serve(s, s.clients[i].fd, ev); ServedAs(s, i, ev, r) && WorkedOn(s, i, r)
  {
    CoreLaws.FdIsUnique(s, i);
    NobodyWorks(s, i);
    if ev.error {
      CloseWorks(s, i, PollError);
    } else {
      var t := if ev.readable then ReadFrom(s, i, ev.recvs) else s;
      ReadOutcome(s, i, ev.recvs);
      var r := Serve(s, s.clients[i].fd, ev);
      if Live(t, i) && ev.writable {
        WriteOutcome(t, i, ev.sends);
        FlushedWorks(t, i, ev.sends, r);
        WorkedOnTrans(s, i, t, r);
      }
      assert WrittenIf(t, i, ev, r);
    }
  }

  /** While others are served: a connection at most gets frames or is dropped. */
  ghost predicate Waits(s: State, i: nat, r: State) {
    && i < |s.clients| == |r.clients| && s.closed <= r.closed
    && (r.clients[i] == Blank() || SameConnection(s.clients[i], r.clients[i]))
    && (s.clients[i].fd >= 0 && r.clients[i].fd < 0 ==> Recorded(s.clients[i].history.serial, s.closed, r.closed))
  }

  lemma WaitsTrans(s: State, i: nat, t: State, r: State)
    requires Waits(s, i, t) && Waits(t, i, r)
    ensures Waits(s, i, r)
  {
    if s.clients[i].fd >= 0 && r.clients[i].fd < 0 {
      RecordedOn(s.clients[i].history.serial, s.closed, t.closed, r.closed);
    }
  }

  lemma OtherServed(s: State, i: nat, fd: int, ev: Revents)
    requires Sound(s) && AllSettled(s) && i < |s.clients| && fd >= 0 && s.clients[i].fd != fd
    ensures Waits(s, i, Serve(s, fd, ev))
  {
    var hit := FindFd(s.clients, fd);
    if hit >= 0 {
      ServeOutcome(s, hit, ev);
      assert Goes(s.clients[i], Serve(s, fd, ev).clients[i], false) || Serve(s, fd, ev).clients[i] == Blank();
    } else {
      NobodyWorks(s, i);
    }
  }

  function ReportOf(events: seq<Revents>, k: nat): Option<Revents> {
    if k < |events| then Some(events[k]) else None
  }

  /** One round of the loop. */
  function ServeReport(t: State, fd: int, report: Option<Revents>): State {
    match report case None => t case Some(ev) => Serve(t, fd, ev)
  }

  lemma ServeNext(s: State, fds: seq<int>, events: seq<Revents>, n: nat)
    requires n < |fds|
    ensures ServeAll(s, fds, events, n + 1) == ServeReport(ServeAll(s, fds, events, n), fds[n], ReportOf(events, n))
  {
  }

  /** Slot i holds the connection that had this descriptor, or none. */
  ghost predicate Keeps(t: State, i: nat, fd: int) {
    Sound(t) && AllSettled(t) && i < |t.clients| && (t.clients[i] == Blank() || t.clients[i].fd == fd)
  }

  lemma KeptSoFar(s: State, i: nat, fds: seq<int>, events: seq<Revents>, n: nat, t: State)
    requires Sound(s) && AllSettled(s) && Live(s, i) && n <= |fds| && forall k :: 0 <= k < |fds| ==> fds[k] >= 0
    requires t == ServeAll(s, fds, events, n)
    ensures Keeps(t, i, s.clients[i].fd)
  {
    ServeAllSound(s, fds, events, n);
  }

  lemma OtherRound(t: State, i: nat, own: int, fd: int, report: Option<Revents>)
    requires Keeps(t, i, own) && own != fd && fd >= 0
    ensures Waits(t, i, ServeReport(t, fd, report))
  {
    if report.Some? { OtherServed(t, i, fd, report.value); } else { NobodyWaits(t, i); }
  }

  lemma NobodyWaits(t: State, i: nat)
    requires Sound(t) && i < |t.clients|
    ensures Waits(t, i, t)
  {
  }

  lemma RoundServed(s: State, i: nat, fds: seq<int>, events: seq<Revents>, n: nat, t: State, r: State)
    requires Sound(s) && AllSettled(s) && Live(s, i) && n < |fds| && s.clients[i].fd != fds[n]
    requires forall k :: 0 <= k < |fds| ==> fds[k] >= 0
    requires t == ServeAll(s, fds, events, n) && r == ServeAll(s, fds, events, n + 1)
    ensures Waits(t, i, r)
  {
    KeptSoFar(s, i, fds, events, n, t);
    ServeNext(s, fds, events, n);
    OtherRound(t, i, s.clients[i].fd, fds[n], ReportOf(events, n));
  }

  /** The states between the rounds. */
  function States(s: State, fds: seq<int>, events: seq<Revents>): (r: seq<State>)
    ensures |r| == |fds| + 1
    ensures forall k :: 0 <= k <= |fds| ==> r[k] == ServeAll(s, fds, events, k)
  {
    seq(|fds| + 1, k requires 0 <= k <= |fds| => ServeAll(s, fds, events, k))
  }

  ghost predicate WaitsAt(states: seq<State>, i: nat, n: nat) {
    n + 1 < |states| && Waits(states[n], i, states[n + 1])
  }

  lemma {:induction false} WaitsThrough(states: seq<State>, i: nat, m: nat, n: nat)
    requires m <= n < |states| && Waits(states[m], i, states[m])
    requires forall k :: m <= k < n ==> WaitsAt(states, i, k)
    ensures Waits(states[m], i, states[n])
  {
    if m < n {
      WaitsThrough(states, i, m, n - 1);
      assert WaitsAt(states, i, n - 1);
      WaitsTrans(states[m], i, states[n - 1], states[n]);
    }
  }

  lemma {:induction false} PolledOnce(clients: seq<Conn>, a: nat, b: nat)
    requires AllApart(clients) && a < b < |Polled(clients)|
    ensures Polled(clients)[a] != Polled(clients)[b]
  {
    var front := clients[..|clients| - 1];
    if b < |Polled(front)| {
      PolledOnce(front, a, b);
    } else {
      PolledAreLive(front, Polled(front)[a]);
      var j :| 0 <= j < |front| && front[j].fd == Polled(front)[a];
      assert Apart(clients[j], clients[|clients| - 1]);
    }
  }

  /** As many descriptors are polled as clients are live. */
  lemma {:induction false} PolledCount(clients: seq<Conn>)
    ensures |Polled(clients)| == LiveCount(clients)
  {
    if clients != [] { PolledCount(clients[..|clients| - 1]); }
  }

  /** The connection afterwards, by its report: it has received all that arrived, and its
      stream has not ended, or it has a malformed header in front; without a readable report
      it has received nothing. */
  predicate ReadBy(c: Conn, d: Conn, report: Option<Revents>) {
    && d.fd == c.fd && d.history.serial == c.history.serial && (report.Some? ==> !report.value.error)
    && if report.Some? && report.value.readable then
         var had, has, arrived := c.history.received, d.history.received, Arrived(report.value.recvs);
         || (!Ends(report.value.recvs) && has == had + arrived)
         || (Malformed(d.inbuf) && had < has <= had + arrived)
       else d.history.received == c.history.received
  }

  /** A connection's turn: it is still there, and read by its report, or among those closed. */
  predicate Turn(t: State, i: nat, report: Option<Revents>, u: State) {
    && i < |u.clients| == |t.clients| && t.closed <= u.closed
    && (Live(u, i) ==> Live(t, i) && ReadBy(t.clients[i], u.clients[i], report))
    && (Live(t, i) && !Live(u, i) ==> Recorded(t.clients[i].history.serial, t.closed, u.closed))
  }

  lemma ServedInTurn(t: State, i: nat, ev: Revents, u: State)
    requires i < |t.clients| && ServedAs(t, i, ev, u) && WorkedOn(t, i, u) && Live(t, i)
    ensures Turn(t, i, Some(ev), u)
  {
    if Live(u, i) {
      assert !ev.error;
      var m := if ev.readable then ReadFrom(t, i, ev.recvs) else t;
      assert Live(m, i);
      assert u.clients[i].history.received == m.clients[i].history.received && u.clients[i].inbuf == m.clients[i].inbuf;
    }
  }

  /** One pass for one connection: it waits while others are served, it has its turn, and it
      waits again. */
  ghost predicate InTurn(s: State, i: nat, report: Option<Revents>, r: State) {
    exists t, u :: Waits(s, i, t) && Turn(t, i, report, u) && Waits(u, i, r)
  }

  lemma OwnRound(t: State, i: nat, fd: int, report: Option<Revents>)
    requires Keeps(t, i, fd) && fd >= 0
    ensures Turn(t, i, report, ServeReport(t, fd, report))
  {
    if report.Some? && Live(t, i) {
      ServeOutcome(t, i, report.value);
      ServedInTurn(t, i, report.value, ServeReport(t, fd, report));
    } else if report.Some? {
      OtherServed(t, i, fd, report.value);
    }
  }

  lemma OnlyOneReport(clients: seq<Conn>, k: nat)
    requires AllApart(clients) && k < |Polled(clients)|
    ensures forall n :: 0 <= n < |Polled(clients)| && n != k ==> Polled(clients)[n] != Polled(clients)[k]
  {
    forall n | 0 <= n < |Polled(clients)| && n != k ensures Polled(clients)[n] != Polled(clients)[k] {
      if n < k { PolledOnce(clients, n, k); } else { PolledOnce(clients, k, n); }
    }
  }

  lemma StateServed(s: State, i: nat, events: seq<Revents>, fds: seq<int>, k: nat, t: State)
    requires Sound(s) && AllSettled(s) && Live(s, i) && k <= |fds| && forall n :: 0 <= n < |fds| ==> fds[n] >= 0
    requires t == ServeAll(s, fds, events, k)
    ensures Waits(t, i, t)
  {
    KeptSoFar(s, i, fds, events, k, t);
    NobodyWaits(t, i);
  }

  lemma TurnServed(s: State, i: nat, events: seq<Revents>, fds: seq<int>, k: nat, t: State, u: State)
    requires Sound(s) && AllSettled(s) && Live(s, i) && k < |fds| && forall n :: 0 <= n < |fds| ==> fds[n] >= 0
    requires fds[k] == s.clients[i].fd
    requires t == ServeAll(s, fds, events, k) && u == ServeAll(s, fds, events, k + 1)
    ensures Turn(t, i, ReportOf(events, k), u)
  {
    KeptSoFar(s, i, fds, events, k, t);
    ServeNext(s, fds, events, k);
    OwnRound(t, i, fds[k], ReportOf(events, k));
  }

  lemma OthersWait(s: State, i: nat, events: seq<Revents>, fds: seq<int>, k: nat, states: seq<State>)
    requires Sound(s) && AllSettled(s) && Live(s, i) && k < |fds| && fds[k] == s.clients[i].fd
    requires forall n :: 0 <= n < |fds| ==> fds[n] >= 0
    requires forall n :: 0 <= n < |fds| && n != k ==> fds[n] != fds[k]
    requires states == States(s, fds, events)
    ensures forall n :: 0 <= n < |fds| && n != k ==> WaitsAt(states, i, n)
  {
    forall n | 0 <= n < |fds| && n != k ensures WaitsAt(states, i, n) {
      RoundServed(s, i, fds, events, n, states[n], states[n + 1]);
    }
  }

  lemma AroundTurn(s: State, i: nat, events: seq<Revents>, fds: seq<int>, k: nat, states: seq<State>)
    requires Sound(s) && AllSettled(s) && Live(s, i) && k < |fds| && fds[k] == s.clients[i].fd
    requires forall n :: 0 <= n < |fds| ==> fds[n] >= 0
    requires states == States(s, fds, events)
    ensures Waits(states[0], i, states[0]) && Waits(states[k + 1], i, states[k + 1])
    ensures Turn(states[k], i, ReportOf(events, k), states[k + 1])
  {
    StateServed(s, i, events, fds, 0, states[0]);
    StateServed(s, i, events, fds, k + 1, states[k + 1]);
    TurnServed(s, i, events, fds, k, states[k], states[k + 1]);
  }

  lemma AllServed(s: State, i: nat, events: seq<Revents>, fds: seq<int>, k: nat, states: seq<State>)
    requires Sound(s) && AllSettled(s) && Live(s, i) && k < |fds| && fds[k] == s.clients[i].fd
    requires forall n :: 0 <= n < |fds| ==> fds[n] >= 0
    requires forall n :: 0 <= n < |fds| && n != k ==> fds[n] != fds[k]
    requires states == States(s, fds, events)
    ensures InTurn(states[0], i, ReportOf(events, k), states[|fds|])
  {
    OthersWait(s, i, events, fds, k, states);
    AroundTurn(s, i, events, fds, k, states);
    TurnAmongOthers(states, i, k, ReportOf(events, k));
  }

  lemma TurnAmongOthers(states: seq<State>, i: nat, k: nat, report: Option<Revents>)
    requires k + 1 < |states| && Turn(states[k], i, report, states[k + 1])
    requires Waits(states[0], i, states[0]) && Waits(states[k + 1], i, states[k + 1])
    requires forall n :: 0 <= n < |states| - 1 && n != k ==> WaitsAt(states, i, n)
    ensures InTurn(states[0], i, report, states[|states| - 1])
  {
    WaitsThrough(states, i, 0, k);
    WaitsThrough(states, i, k + 1, |states| - 1);
  }

  /** What a pass is for each connection that is polled. */
  lemma PassOutcome(s: State, i: nat, p: Pass, k: nat)
    requires Sound(s) && AllSettled(s) && PassOk(s, p) && Live(s, i)
    requires k < |Polled(s.clients)| && Polled(s.clients)[k] == s.clients[i].fd
    ensures InTurn(s, i, ReportOf(p.events, k), PollPass(s, p))
  {
    var fds, t0 := Polled(s.clients), if p.listening then AcceptAll(s, p.accepts) else s;
    if p.listening { AcceptSound(s, p.accepts); }
    PolledAreOpen(s.clients);
    OnlyOneReport(s.clients, k);
    NobodyServed(t0, fds, p.events);
    AllServed(t0, i, p.events, fds, k, States(t0, fds, p.events));
    InTurnEarlier(s, t0, i, ReportOf(p.events, k), PollPass(s, p));
  }

  lemma InTurnEarlier(s: State, t0: State, i: nat, report: Option<Revents>, r: State)
    requires InTurn(t0, i, report, r) && i < |s.clients| == |t0.clients|
    requires s.clients[i] == t0.clients[i] && s.closed == t0.closed
    ensures InTurn(s, i, report, r)
  {
    var t, u :| Waits(t0, i, t) && Turn(t, i, report, u) && Waits(u, i, r);
    assert Waits(s, i, t);
  }

  /** What a pass must do for a connection by its report: an error ends it; reading receives
      all that arrives or ends it, except behind a malformed header; and whoever goes is
      among the connections closed since. */
  lemma PassReads(s: State, i: nat, p: Pass, k: nat)
    requires Sound(s) && AllSettled(s) && PassOk(s, p) && Live(s, i)
    requires k < |Polled(s.clients)| && Polled(s.clients)[k] == s.clients[i].fd
    ensures var r := PollPass(s, p);
      && i < |r.clients| && s.closed <= r.closed
      && if Live(r, i) then ReadBy(s.clients[i], r.clients[i], ReportOf(p.events, k))
         else Recorded(s.clients[i].history.serial, s.closed, r.closed)
  {
    PassOutcome(s, i, p, k);
    ReadsInTurn(s, i, ReportOf(p.events, k), PollPass(s, p));
  }

  lemma ReadsInTurn(s: State, i: nat, report: Option<Revents>, r: State)
    requires Live(s, i) && InTurn(s, i, report, r)
    ensures i < |r.clients| && s.closed <= r.closed
    ensures if Live(r, i) then ReadBy(s.clients[i], r.clients[i], report)
            else Recorded(s.clients[i].history.serial, s.closed, r.closed)
  {
    var t, u :| Waits(s, i, t) && Turn(t, i, report, u) && Waits(u, i, r);
    if !Live(r, i) { GoneInTurn(s, i, t, u, r); }
  }

  lemma GoneInTurn(s: State, i: nat, t: State, u: State, r: State)
    requires Waits(s, i, t) && Waits(u, i, r) && Live(s, i) && !Live(r, i)
    requires i < |u.clients| == |t.clients| && t.closed <= u.closed
    requires Live(t, i) && Live(u, i) ==> u.clients[i].history.serial == t.clients[i].history.serial
    requires Live(t, i) && !Live(u, i) ==> Recorded(t.clients[i].history.serial, t.closed, u.closed)
    ensures s.closed <= r.closed && Recorded(s.clients[i].history.serial, s.closed, r.closed)
  {
    var n := s.clients[i].history.serial;
    if !Live(t, i) {
      RecordedOn(n, s.closed, t.closed, r.closed);
    } else {
      assert Recorded(n, t.closed, r.closed) by { RecordedOn(n, t.closed, u.closed, r.closed); }
      RecordedOn(n, s.closed, t.closed, r.closed);
    }
  }

  /** Somebody who has come in this pass: still in the slot that was free, or gone again. */
  predicate CameIn(s: State, r: State, fds: seq<nat>, k: nat) {
    && k < |fds|
    && exists j :: 0 <= j < |s.clients| && j < |r.clients| && s.clients[j].fd < 0
                   && (r.clients[j] == Blank() || Holds(r.clients[j], s.stats.total + k, fds[k]))
  }

  predicate Holds(c: Conn, n: nat, fd: nat) {
    c.fd == fd && c.history.serial == n
  }

  lemma StillIn(s: State, t: State, r: State, fds: seq<nat>, k: nat)
    requires HasSlot(s, t, fds, k) && Steady(t, r)
    ensures CameIn(s, r, fds, k)
  {
    var j :| 0 <= j < |s.clients| && j < |t.clients| && s.clients[j].fd < 0
             && Newcomer(t.clients[j], s.stats.total + k, fds[k]);
    assert r.clients[j] == Blank() || Holds(r.clients[j], s.stats.total + k, fds[k]);
  }

  /** In a pass that finds the listener readable, and in no other, the arrivals there are slots
      for come in and are counted. */
  lemma PassSeats(s: State, p: Pass)
    requires Sound(s) && AllSettled(s) && PassOk(s, p)
    ensures var fds := if p.listening then Arrivals(p.accepts) else [];
      var n, r := Fewer(|fds|, FreeCount(s.clients)), PollPass(s, p);
      r.stats.total == s.stats.total + n && forall k :: 0 <= k < n ==> CameIn(s, r, fds, k)
  {
    var t := if p.listening then AcceptAll(s, p.accepts) else s;
    if p.listening {
      AcceptSound(s, p.accepts);
      AcceptSeats(s, p.accepts);
    }
    PolledAreOpen(s.clients);
    ServeAllSound(t, Polled(s.clients), p.events, |Polled(s.clients)|);
    PassServes(s, p);
    var fds := if p.listening then Arrivals(p.accepts) else [];
    forall k | 0 <= k < Fewer(|fds|, FreeCount(s.clients)) ensures CameIn(s, PollPass(s, p), fds, k) {
      StillIn(s, t, PollPass(s, p), fds, k);
    }
  }
}
