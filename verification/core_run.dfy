/** Whole runs of the core: reading, writing, accepting and the poll loop keep the
    invariant, for every behaviour of the operating system. */
module CoreRun {
  import opened Bytes
  import opened Wire
  import opened Core
  import opened CoreInvariant
  import opened CoreDelivery
  import opened CoreCommands

  /** Between two events every live connection has handled all it can. */
  predicate AllSettled(s: State) {
    forall i :: 0 <= i < |s.clients| && s.clients[i].fd >= 0 ==> Settled(s.clients[i])
  }

  predicate SettledBut(s: State, i: nat) {
    forall j :: 0 <= j < |s.clients| && j != i && s.clients[j].fd >= 0 ==> Settled(s.clients[j])
  }

  /** While the buffer is being drained: what is left in it completes the parse. */
  predicate Draining(c: Conn) {
    Parse(c.history.received) == Prepend(c.history.dispatched, Parse(c.inbuf))
  }

  /** The channel table, the log and the list of closed connections have only grown. */
  predicate Grown(s: State, r: State) {
    s.channels <= r.channels && s.log <= r.log && s.closed <= r.closed
  }

  /** And no slot has changed hands: it holds the same connection or none. */
  predicate Steady(s: State, r: State) {
    && Grown(s, r)
    && |r.clients| == |s.clients| && r.stats.total == s.stats.total
    && forall j :: 0 <= j < |s.clients| ==>
         r.clients[j] == Blank()
         || (r.clients[j].fd == s.clients[j].fd >= 0 && r.clients[j].history.serial == s.clients[j].history.serial)
  }

  lemma CalmIsSteady(s: State, r: State)
    requires Calm(s, r)
    ensures Steady(s, r)
  {
  }

  lemma SteadyTrans(s: State, t: State, r: State)
    requires Steady(s, t) && Steady(t, r)
    ensures Steady(s, r)
  {
  }

  lemma CalmKeepsSettled(s: State, r: State, i: nat)
    requires Calm(s, r) && SettledBut(s, i)
    ensures SettledBut(r, i)
  {
  }

  // --------------------------------------------------------------------- input

  lemma DispatchKeepsInput(c: Conn)
    requires Draining(c) && FrameReady(c.inbuf)
    ensures var f := FirstFrame(c.inbuf);
      && c.history.dispatched + [f] <= Parse(c.history.received).frames
      && Parse(c.history.received) == Prepend(c.history.dispatched + [f], Parse(AfterFirst(c.inbuf)))
  {
    var f := FirstFrame(c.inbuf);
    PrependPrepend(c.history.dispatched, [f], Parse(AfterFirst(c.inbuf)));
    assert Parse(c.inbuf) == Prepend([f], Parse(AfterFirst(c.inbuf)));
  }

  /** One connection goes on, and nobody else changes. */
  lemma OneGoesOn(s: State, i: nat, d: Conn)
    requires Sound(s) && Live(s, i) && SettledBut(s, i)
    requires d.fd == s.clients[i].fd && d.history.serial == s.clients[i].history.serial
    requires ConnOk(s.channels, s.maxQueue, d) && DeliveredTo(s.channels, s.log, d)
    requires d.registered == s.clients[i].registered && d.username == s.clients[i].username
    ensures var t := Update(s, i, d); Sound(t) && Live(t, i) && Steady(s, t) && SettledBut(t, i)
  {
    if d.registered { OwnNameIsFree(s, i); }
    UpdateSound(s, i, d);
    SteadyUpdate(s, i, d);
  }

  lemma SteadyUpdate(s: State, i: nat, d: Conn)
    requires ClientsOk(s) && Live(s, i) && d.fd == s.clients[i].fd && d.history.serial == s.clients[i].history.serial
    ensures Steady(s, Update(s, i, d))
  {
  }

  /** The state in which handle_frame runs. */
  function Dispatching(s: State, i: nat, f: Frame): State
    requires i < |s.clients|
  {
    var c := s.clients[i];
    Update(s, i, c.(history := c.history.(dispatched := c.history.dispatched + [f])))
  }

  lemma DispatchingSound(s: State, i: nat)
    requires Sound(s) && Live(s, i) && SettledBut(s, i)
    requires Draining(s.clients[i]) && FrameReady(s.clients[i].inbuf)
    ensures var t := Dispatching(s, i, FirstFrame(s.clients[i].inbuf));
      Sound(t) && Live(t, i) && Steady(s, t) && SettledBut(t, i)
  {
    var c := s.clients[i];
    var f := FirstFrame(c.inbuf);
    var d := c.(history := c.history.(dispatched := c.history.dispatched + [f]));
    DispatchKeepsInput(c);
    assert SessionOk(s.channels, d);
    assert DeliveredTo(s.channels, s.log, c);
    OneGoesOn(s, i, d);
  }

  /** One frame handled: either the client is gone, or its buffer can be moved on. */
  lemma DispatchSound(s: State, i: nat)
    requires Sound(s) && Live(s, i) && SettledBut(s, i)
    requires Draining(s.clients[i]) && FrameReady(s.clients[i].inbuf)
    ensures var b := s.clients[i].inbuf;
      var t := Dispatch(s, i, FirstFrame(b));
      && Sound(t) && Steady(s, t) && SettledBut(t, i)
      && (Live(t, i) ==>
            && t.clients[i].inbuf == b
            && t.clients[i].history.received == s.clients[i].history.received
            && Parse(t.clients[i].history.received) == Prepend(t.clients[i].history.dispatched, Parse(AfterFirst(b))))
  {
    var f := FirstFrame(s.clients[i].inbuf);
    var u := Dispatching(s, i, f);
    DispatchingSound(s, i);
    DispatchKeepsInput(s.clients[i]);
    HandleFrameSound(u, i, f);
    var t := HandleFrame(u, i, f);
    CalmKeepsSettled(u, t, i);
    CalmIsSteady(u, t);
    SteadyTrans(s, u, t);
  }

  lemma ConsumeSound(s: State, i: nat, rest: Bytes)
    requires Sound(s) && Live(s, i) && SettledBut(s, i) && |rest| <= INBUF_CAP
    ensures var t := Consume(s, i, rest); Sound(t) && Live(t, i) && Steady(s, t) && SettledBut(t, i)
  {
    var c := s.clients[i];
    var d := c.(inbuf := rest);
    assert SessionOk(s.channels, d);
    assert DeliveredTo(s.channels, s.log, c);
    OneGoesOn(s, i, d);
  }

  /** A malformed header is reported and stays where it is. */
  lemma MalformedSound(s: State, i: nat)
    requires Sound(s) && AllSettled(s) && Live(s, i) && Malformed(s.clients[i].inbuf)
    ensures Drained(s, i, Drain(s, i))
  {
    var t := CountMalformed(s);
    assert Sound(t) && AllSettled(t);
    SaySound(t, i, ERROR, "malformed frame");
    CalmKeepsAllSettled(t, Say(t, i, ERROR, "malformed frame"));
    CalmIsSteady(t, Say(t, i, ERROR, "malformed frame"));
  }

  lemma IncompleteSound(s: State, i: nat)
    requires Sound(s) && AllSettled(s) && Live(s, i)
    requires !Malformed(s.clients[i].inbuf) && !FrameReady(s.clients[i].inbuf)
    ensures Drained(s, i, Drain(s, i))
  {
    CalmStays(s);
    CalmIsSteady(s, s);
    assert Drain(s, i) == Outcome(s, true);
  }

  lemma StuckIsSettled(s: State, i: nat)
    requires Live(s, i) && SettledBut(s, i) && Draining(s.clients[i]) && !FrameReady(s.clients[i].inbuf)
    ensures AllSettled(s)
  {
    assert Settled(s.clients[i]);
  }

  /** One round of the loop, when the client survives it. */
  lemma DrainRound(s: State, i: nat)
    requires Sound(s) && Live(s, i) && SettledBut(s, i)
    requires Draining(s.clients[i]) && FrameReady(s.clients[i].inbuf)
    requires Live(Dispatch(s, i, FirstFrame(s.clients[i].inbuf)), i)
    ensures var b := s.clients[i].inbuf;
      var u := Consume(Dispatch(s, i, FirstFrame(b)), i, AfterFirst(b));
      && Sound(u) && Live(u, i) && SettledBut(u, i) && Draining(u.clients[i]) && Steady(s, u)
      && u.clients[i].history.received == s.clients[i].history.received
  {
    var b := s.clients[i].inbuf;
    DispatchSound(s, i);
    var t := Dispatch(s, i, FirstFrame(b));
    ConsumeSound(t, i, AfterFirst(b));
    SteadyTrans(s, t, Consume(t, i, AfterFirst(b)));
  }

  /** Draining handles every complete frame and then stops: in front of an incomplete
      frame, which leaves room in the buffer, or of a malformed header. */
  lemma {:induction false} DrainSound(s: State, i: nat)
    requires Sound(s) && Live(s, i) && SettledBut(s, i) && Draining(s.clients[i])
    ensures Drained(s, i, Drain(s, i))
    decreases |s.clients[i].inbuf|
  {
    var b := s.clients[i].inbuf;
    if !FrameReady(b) {
      DrainStops(s, i);
    } else if !Live(Dispatch(s, i, FirstFrame(b)), i) {
      DispatchSound(s, i);
      assert AllSettled(Dispatch(s, i, FirstFrame(b)));
    } else {
      DrainRound(s, i);
      var u := Consume(Dispatch(s, i, FirstFrame(b)), i, AfterFirst(b));
      DrainSound(u, i);
      DrainedEarlier(s, u, i, Drain(u, i));
    }
  }

  lemma DrainStops(s: State, i: nat)
    requires Sound(s) && Live(s, i) && SettledBut(s, i) && Draining(s.clients[i])
    requires !FrameReady(s.clients[i].inbuf)
    ensures Drained(s, i, Drain(s, i))
  {
    StuckIsSettled(s, i);
    if Malformed(s.clients[i].inbuf) {
      MalformedSound(s, i);
    } else {
      IncompleteSound(s, i);
    }
  }

  lemma DrainedEarlier(s: State, u: State, i: nat, r: Outcome)
    requires Live(s, i) && Live(u, i) && Steady(s, u)
    requires u.clients[i].history.received == s.clients[i].history.received
    requires Drained(u, i, r)
    ensures Drained(s, i, r)
  {
    SteadyTrans(s, u, r.state);
  }

  predicate Drained(s: State, i: nat, r: Outcome)
    requires i < |s.clients|
  {
    && Sound(r.state) && AllSettled(r.state) && Steady(s, r.state)
    && (r.ok ==> Live(r.state, i) && |r.state.clients[i].inbuf| < INBUF_CAP)
    && (!r.ok && Live(r.state, i) ==> Malformed(r.state.clients[i].inbuf))
    && (Live(r.state, i) ==> r.state.clients[i].history.received == s.clients[i].history.received)
  }

  lemma CalmKeepsAllSettled(s: State, r: State)
    requires Calm(s, r) && AllSettled(s)
    ensures AllSettled(r)
  {
  }

  lemma AppendSound(s: State, i: nat, chunk: Bytes)
    requires Sound(s) && AllSettled(s) && Live(s, i) && |s.clients[i].inbuf| + |chunk| <= INBUF_CAP
    ensures var t := Append(s, i, chunk);
      Sound(t) && Live(t, i) && SettledBut(t, i) && Draining(t.clients[i]) && Steady(s, t)
  {
    var c := s.clients[i];
    var d := c.(inbuf := c.inbuf + chunk, history := c.history.(received := c.history.received + chunk));
    AppendDraining(c, d, chunk);
    assert SessionOk(s.channels, d);
    assert DeliveredTo(s.channels, s.log, c);
    OneGoesOn(s, i, d);
  }

  lemma AppendDraining(c: Conn, d: Conn, chunk: Bytes)
    requires Settled(c) && d.inbuf == c.inbuf + chunk && d.history.received == c.history.received + chunk
    requires d.history.dispatched == c.history.dispatched
    ensures Draining(d) && InputOk(d.history)
  {
    ParseResumes(c.history.received, chunk);
  }

  /** The "input buffer full" disconnect happens only behind a malformed header. */
  lemma FullOnlyWhenMalformed(c: Conn)
    requires Settled(c) && |c.inbuf| >= INBUF_CAP
    ensures Malformed(c.inbuf)
  {
    RestIsStuck(c.history.received);
  }

  /** All bytes a script of recv answers would deliver. */
  function Incoming(answers: seq<Recv>): Bytes {
    if answers == [] then []
    else (if answers[0].Data? then answers[0].bytes else []) + Incoming(answers[1..])
  }

  lemma IncomingSplits(answers: seq<Recv>, n: nat)
    requires answers != [] && answers[0].Data? && n <= |answers[0].bytes|
    ensures Incoming(answers) == answers[0].bytes[..n] + Incoming(Later(answers, n))
  {
    var b := answers[0].bytes;
    if n < |b| {
      var l := [Data(b[n..])] + answers[1..];
      assert l[1..] == answers[1..];
      assert b == b[..n] + b[n..];
      assert b[..n] + (b[n..] + Incoming(answers[1..])) == b + Incoming(answers[1..]);
    } else {
      assert b[..n] == b;
    }
  }

  /** One successful recv and the draining after it. */
  lemma ReadChunk(s: State, i: nat, chunk: Bytes)
    requires Sound(s) && AllSettled(s) && Live(s, i) && |s.clients[i].inbuf| + |chunk| <= INBUF_CAP
    ensures var d := Drain(Append(s, i, chunk), i);
      && Sound(d.state) && AllSettled(d.state) && Steady(s, d.state)
      && (d.ok ==> Live(d.state, i))
      && (Live(d.state, i) ==> d.state.clients[i].history.received == s.clients[i].history.received + chunk)
  {
    AppendSound(s, i, chunk);
    DrainSound(Append(s, i, chunk), i);
    SteadyTrans(s, Append(s, i, chunk), Drain(Append(s, i, chunk), i).state);
  }

  /** From one sound state to another in which connections have at most gone on. */
  predicate Carries(s: State, r: State) {
    Sound(r) && AllSettled(r) && Steady(s, r)
  }

  lemma CarriesNothing(s: State)
    requires Sound(s) && AllSettled(s)
    ensures Carries(s, s)
  {
    CalmStays(s);
    CalmIsSteady(s, s);
  }

  lemma CarriesOn(s: State, t: State, r: State)
    requires Carries(s, t) && Carries(t, r)
    ensures Carries(s, r)
  {
    SteadyTrans(s, t, r);
  }

  /** What holds after reading: every byte recv delivered is accounted for, in order. */
  predicate WasRead(s: State, i: nat, incoming: Bytes, r: State)
    requires i < |s.clients|
  {
    && Sound(r) && AllSettled(r) && Steady(s, r)
    && (Live(r, i) ==> s.clients[i].history.received <= r.clients[i].history.received
                       <= s.clients[i].history.received + incoming)
  }

  /** recv has delivered something there is room for. */
  predicate HasRead(s: State, i: nat, answers: seq<Recv>)
    requires i < |s.clients|
  {
    |s.clients[i].inbuf| < INBUF_CAP && answers != [] && answers[0].Data? && answers[0].bytes != []
  }

  /** Every other answer but EINTR ends the reading. */
  lemma ReadEnds(s: State, i: nat, answers: seq<Recv>)
    requires Sound(s) && AllSettled(s) && Live(s, i) && !HasRead(s, i, answers)
    requires |s.clients[i].inbuf| < INBUF_CAP && answers != [] ==> !answers[0].RecvInterrupted?
    ensures WasRead(s, i, Incoming(answers), ReadFrom(s, i, answers))
  {
    if |s.clients[i].inbuf| >= INBUF_CAP {
      ReadClosed(s, i, Incoming(answers), BufferFull);
    } else if answers == [] || answers[0].RecvAgain? {
      NothingRead(s, i, Incoming(answers));
    } else if answers[0].RecvError? {
      ReadClosed(s, i, Incoming(answers), RecvFailed);
    } else {
      ReadClosed(s, i, Incoming(answers), PeerClosed);
    }
  }

  lemma ReadAgain(s: State, i: nat, answers: seq<Recv>)
    requires i < |s.clients| && |s.clients[i].inbuf| < INBUF_CAP && answers != [] && answers[0].RecvInterrupted?
    ensures ReadFrom(s, i, answers) == ReadFrom(s, i, answers[1..]) && Incoming(answers) == Incoming(answers[1..])
  {
  }

  lemma {:induction false} ReadSound(s: State, i: nat, answers: seq<Recv>)
    requires Sound(s) && AllSettled(s) && Live(s, i)
    ensures WasRead(s, i, Incoming(answers), ReadFrom(s, i, answers))
    decreases |answers|, if answers != [] && answers[0].Data? then |answers[0].bytes| else 0
  {
    if HasRead(s, i, answers) {
      var n := Min(|answers[0].bytes|, INBUF_CAP - |s.clients[i].inbuf|);
      var d := Drain(Append(s, i, answers[0].bytes[..n]), i);
      ChunkRead(s, i, answers, n);
      if d.ok { ReadSound(d.state, i, Later(answers, n)); }
      ReadGoesOn(s, i, answers, n);
    } else if |s.clients[i].inbuf| < INBUF_CAP && answers != [] && answers[0].RecvInterrupted? {
      ReadAgain(s, i, answers);
      ReadSound(s, i, answers[1..]);
    } else {
      ReadEnds(s, i, answers);
    }
  }

  /** What recv returned has been appended and drained; reading goes on unless that ended it. */
  lemma ReadFromChunk(s: State, i: nat, answers: seq<Recv>, n: nat)
    requires i < |s.clients| && |s.clients[i].inbuf| < INBUF_CAP
    requires answers != [] && answers[0].Data? && answers[0].bytes != []
    requires n == Min(|answers[0].bytes|, INBUF_CAP - |s.clients[i].inbuf|)
    ensures var d := Drain(Append(s, i, answers[0].bytes[..n]), i);
            ReadFrom(s, i, answers) == if d.ok then ReadFrom(d.state, i, Later(answers, n)) else d.state
  {
  }

  lemma ReadGoesOn(s: State, i: nat, answers: seq<Recv>, n: nat)
    requires Sound(s) && AllSettled(s) && Live(s, i) && HasRead(s, i, answers)
    requires n == Min(|answers[0].bytes|, INBUF_CAP - |s.clients[i].inbuf|)
    requires var d, later := Drain(Append(s, i, answers[0].bytes[..n]), i), Later(answers, n);
             d.ok ==> i < |d.state.clients| && WasRead(d.state, i, Incoming(later), ReadFrom(d.state, i, later))
    ensures WasRead(s, i, Incoming(answers), ReadFrom(s, i, answers))
  {
    var chunk, later := answers[0].bytes[..n], Later(answers, n);
    var d := Drain(Append(s, i, chunk), i);
    ReadFromChunk(s, i, answers, n);
    ChunkRead(s, i, answers, n);
    if d.ok { ReadEarlier(s, i, chunk, d.state, Incoming(later), ReadFrom(d.state, i, later)); }
  }

  lemma ReadClosed(s: State, i: nat, incoming: Bytes, why: Reason)
    requires Sound(s) && AllSettled(s) && Live(s, i) && why != Overflow
    ensures WasRead(s, i, incoming, Reset(s, i, why))
  {
    CloseSound(s, i, why);
  }

  /** One chunk read and drained, and what is still to come. */
  lemma ChunkRead(s: State, i: nat, answers: seq<Recv>, n: nat)
    requires Sound(s) && AllSettled(s) && Live(s, i) && answers != [] && answers[0].Data?
    requires n <= |answers[0].bytes| && |s.clients[i].inbuf| + n <= INBUF_CAP
    ensures var chunk := answers[0].bytes[..n];
            var d := Drain(Append(s, i, chunk), i);
            && Incoming(answers) == chunk + Incoming(Later(answers, n))
            && Sound(d.state) && AllSettled(d.state) && Steady(s, d.state)
            && (d.ok ==> Live(d.state, i))
            && (Live(d.state, i) ==> d.state.clients[i].history.received == s.clients[i].history.received + chunk)
            && WasRead(s, i, Incoming(answers), d.state)
  {
    var chunk := answers[0].bytes[..n];
    ReadChunk(s, i, chunk);
    IncomingSplits(answers, n);
    PrefixSplits(s.clients[i].history.received, chunk, Incoming(Later(answers, n)));
  }

  lemma NothingRead(s: State, i: nat, incoming: Bytes)
    requires Sound(s) && AllSettled(s) && Live(s, i)
    ensures WasRead(s, i, incoming, s)
  {
    CalmStays(s);
    CalmIsSteady(s, s);
  }

  lemma ReadEarlier(s: State, i: nat, chunk: Bytes, t: State, incoming: Bytes, r: State)
    requires Live(s, i) && Live(t, i) && Steady(s, t)
    requires t.clients[i].history.received == s.clients[i].history.received + chunk
    requires WasRead(t, i, incoming, r)
    ensures WasRead(s, i, chunk + incoming, r)
  {
    SteadyTrans(s, t, r);
    PrefixSplits(s.clients[i].history.received, chunk, incoming);
  }

  lemma PrefixSplits(a: Bytes, b: Bytes, c: Bytes)
    ensures a <= a + b <= a + (b + c) && a + (b + c) == (a + b) + c
  {
  }

  lemma CloseSound(s: State, i: nat, why: Reason)
    requires Sound(s) && AllSettled(s) && Live(s, i) && why != Overflow
    ensures var r := Reset(s, i, why); Sound(r) && AllSettled(r) && Steady(s, r) && !Live(r, i)
  {
    ResetSound(s, i, why);
    CalmIsSteady(s, Reset(s, i, why));
    CalmKeepsAllSettled(s, Reset(s, i, why));
  }

  // -------------------------------------------------------------------- output

  lemma SliceSplits(b: Bytes, k: nat, n: nat)
    requires k + n <= |b|
    ensures b[k..] == b[k..k + n] + b[k + n..]
  {
  }

  lemma UnsentAfter(c: Conn, n: nat)
    requires c.queue != [] && c.queue[0].sent + n <= |c.queue[0].data|
    ensures var q := c.queue[0];
      Unsent(c.queue) == q.data[q.sent..q.sent + n] + Unsent(Progress(c, n).queue)
  {
    var q, tail := c.queue[0], c.queue[1..];
    SliceSplits(q.data, q.sent, n);
    if q.sent + n < |q.data| {
      assert Progress(c, n).queue[1..] == tail;
      ConcatAssociates(q.data[q.sent..q.sent + n], q.data[q.sent + n..], Unsent(tail));
    }
  }

  lemma QueueAfter(maxQueue: nat, c: Conn, n: nat)
    requires QueueOk(maxQueue, c) && c.queue != [] && c.queue[0].sent + n <= |c.queue[0].data|
    ensures QueueOk(maxQueue, Progress(c, n))
  {
    var d := Progress(c, n);
    if c.queue[0].sent + n < |c.queue[0].data| {
      assert d.queue[1..] == c.queue[1..];
    }
  }

  lemma StreamAfter(c: Conn, n: nat)
    requires StreamOk(c) && c.queue != [] && c.queue[0].sent + n <= |c.queue[0].data|
    ensures StreamOk(Progress(c, n))
  {
    UnsentAfter(c, n);
    var taken := c.queue[0].data[c.queue[0].sent..c.queue[0].sent + n];
    PrefixSplits(c.history.sent, taken, Unsent(Progress(c, n).queue));
  }

  /** Taking bytes off the head frame loses none and repeats none. */
  lemma ProgressKeeps(channels: seq<Bytes>, maxQueue: nat, c: Conn, n: nat)
    requires ConnOk(channels, maxQueue, c) && c.queue != [] && c.queue[0].sent + n <= |c.queue[0].data|
    ensures ConnOk(channels, maxQueue, Progress(c, n))
  {
    var d := Progress(c, n);
    assert SessionOk(channels, d);
    QueueAfter(maxQueue, c, n);
    StreamAfter(c, n);
  }

  lemma ProgressSound(s: State, i: nat, n: nat)
    requires Sound(s) && AllSettled(s) && Live(s, i)
    requires s.clients[i].queue != [] && s.clients[i].queue[0].sent + n <= |s.clients[i].queue[0].data|
    ensures var t := Update(s, i, Progress(s.clients[i], n)); Sound(t) && AllSettled(t) && Steady(s, t)
  {
    ProgressKeeps(s.channels, s.maxQueue, s.clients[i], n);
    assert DeliveredTo(s.channels, s.log, s.clients[i]) && Settled(s.clients[i]);
    OneGoesOn(s, i, Progress(s.clients[i], n));
  }

  /** The state after one send that took something. */
  function Wrote(s: State, i: nat, count: nat): State
    requires i < |s.clients| && s.clients[i].queue != []
    requires s.clients[i].queue[0].sent < |s.clients[i].queue[0].data|
  {
    var c := s.clients[i];
    Update(s, i, Progress(c, Min(count, |c.queue[0].data| - c.queue[0].sent)))
  }

  lemma OneWritten(s: State, i: nat, count: nat)
    requires Sound(s) && AllSettled(s) && Live(s, i)
    requires s.clients[i].queue != [] && s.clients[i].queue[0].sent < |s.clients[i].queue[0].data|
    ensures Carries(s, Wrote(s, i, count)) && Live(Wrote(s, i, count), i)
  {
    var c := s.clients[i];
    ProgressSound(s, i, Min(count, |c.queue[0].data| - c.queue[0].sent));
  }

  lemma {:induction false} WriteSound(s: State, i: nat, answers: seq<Send>)
    requires Sound(s) && AllSettled(s) && Live(s, i)
    ensures Carries(s, WriteTo(s, i, answers))
    decreases |answers|
  {
    var q := s.clients[i].queue;
    if q == [] || answers == [] || answers[0].SendAgain? {
      CarriesNothing(s);
    } else if answers[0].SendInterrupted? {
      WriteSound(s, i, answers[1..]);
    } else if answers[0].SendError? || answers[0].count == 0 || q[0].sent >= |q[0].data| {
      CloseSound(s, i, SendFailed);
    } else {
      var t := Wrote(s, i, answers[0].count);
      OneWritten(s, i, answers[0].count);
      WriteSound(t, i, answers[1..]);
      CarriesOn(s, t, WriteTo(t, i, answers[1..]));
      WriteGoesOn(s, i, answers);
    }
  }

  lemma WriteGoesOn(s: State, i: nat, answers: seq<Send>)
    requires i < |s.clients| && s.clients[i].queue != [] && answers != [] && answers[0].Took? && answers[0].count > 0
    requires s.clients[i].queue[0].sent < |s.clients[i].queue[0].data|
    ensures i < |Wrote(s, i, answers[0].count).clients|
    ensures WriteTo(s, i, answers) == WriteTo(Wrote(s, i, answers[0].count), i, answers[1..])
  {
  }

  // ------------------------------------------------------------------ accepting

  /** The kernel hands out only descriptors that are not open. */
  predicate NotOpen(s: State, fd: int) {
    forall j :: 0 <= j < |s.clients| ==> s.clients[j].fd != fd
  }

  predicate AcceptsOk(s: State, answers: seq<Accept>)
    decreases |answers|
  {
    if answers == [] || answers[0].AcceptAgain? || answers[0].AcceptError? then true
    else if answers[0].AcceptInterrupted? then AcceptsOk(s, answers[1..])
    else NotOpen(s, answers[0].fd) && AcceptsOk(Admit(s, answers[0]), answers[1..])
  }

  lemma NoUnsentAtFirst()
    ensures Unsent([]) == [] && EncodeAll([]) == [] && TotalBytes([]) == 0
    ensures Parse([]) == Parsed([], [])
  {
  }

  /** Accepting fills free slots only; nobody who was there is touched. */
  predicate OnlyAdded(s: State, r: State) {
    && r.channels == s.channels && r.log == s.log && r.closed == s.closed
    && |r.clients| == |s.clients|
    && forall j :: 0 <= j < |s.clients| && s.clients[j].fd >= 0 ==> r.clients[j] == s.clients[j]
  }

  lemma FreshOk(s: State, fd: nat)
    ensures var c := Fresh(s, fd);
      ConnOk(s.channels, s.maxQueue, c) && DeliveredTo(s.channels, s.log, c) && Settled(c)
  {
    NoUnsentAtFirst();
  }

  lemma AdmittedApart(s: State, slot: nat, c: Conn)
    requires ClientsOk(s) && AllApart(s.clients) && slot < |s.clients|
    requires c.fd >= 0 && !c.registered && NotOpen(s, c.fd) && c.history.serial == s.stats.total
    ensures AllApart(s.clients[slot := c])
  {
  }

  lemma AdmittedClients(s: State, slot: nat, c: Conn)
    requires ClientsOk(s) && slot < |s.clients| && ConnOk(s.channels, s.maxQueue, c)
    requires c.history.serial == s.stats.total
    ensures var st := s.stats.(current := s.stats.current + 1, total := s.stats.total + 1);
            ClientsOk(Update(s, slot, c).(stats := st))
  {
  }

  lemma AdmitGood(s: State, a: Accept)
    requires Good(s) && a.Fd? && NotOpen(s, a.fd)
    ensures Good(Admit(s, a)) && OnlyAdded(s, Admit(s, a))
  {
    var slot := FindFree(s.clients);
    if slot >= 0 && a.nonblocking { SeatGood(s, slot, a.fd); }
  }

  lemma SeatGood(s: State, slot: nat, fd: nat)
    requires Good(s) && slot < |s.clients| && s.clients[slot].fd < 0 && NotOpen(s, fd)
    ensures Good(Seat(s, slot, fd)) && OnlyAdded(s, Seat(s, slot, fd))
  {
    var c := Fresh(s, fd);
    LiveCountUpdate(s.clients, slot, c);
    FreshOk(s, fd);
    AdmittedApart(s, slot, c);
    AdmittedClients(s, slot, c);
  }

  lemma AdmitSound(s: State, a: Accept)
    requires Sound(s) && AllSettled(s) && a.Fd? && NotOpen(s, a.fd)
    ensures Sound(Admit(s, a)) && AllSettled(Admit(s, a)) && OnlyAdded(s, Admit(s, a))
  {
    AdmitGood(s, a);
    FreshOk(s, a.fd);
    var r := Admit(s, a);
    forall j | 0 <= j < |r.clients| && r.clients[j].fd >= 0
      ensures DeliveredTo(r.channels, r.log, r.clients[j]) && Settled(r.clients[j])
    {
      if r.clients[j] == s.clients[j] {
        assert DeliveredTo(s.channels, s.log, s.clients[j]) && Settled(s.clients[j]);
      }
    }
  }

  lemma {:induction false} AcceptSound(s: State, answers: seq<Accept>)
    requires Sound(s) && AllSettled(s) && AcceptsOk(s, answers)
    ensures var r := AcceptAll(s, answers); Sound(r) && AllSettled(r) && OnlyAdded(s, r)
    decreases |answers|
  {
    if answers == [] || answers[0].AcceptAgain? || answers[0].AcceptError? {
    } else if answers[0].AcceptInterrupted? {
      AcceptSound(s, answers[1..]);
    } else {
      AdmitSound(s, answers[0]);
      AcceptSound(Admit(s, answers[0]), answers[1..]);
    }
  }

  // ------------------------------------------------------------------- the loop

  lemma ServeSound(s: State, fd: int, ev: Revents)
    requires Sound(s) && AllSettled(s) && fd >= 0
    ensures var r := Serve(s, fd, ev); Sound(r) && AllSettled(r) && Steady(s, r)
  {
    CalmStays(s);
    CalmIsSteady(s, s);
    var i := FindFd(s.clients, fd);
    if i < 0 {
    } else if ev.error {
      CloseSound(s, i, PollError);
    } else {
      ReadSound(s, i, ev.recvs);
      var t := if ev.readable then ReadFrom(s, i, ev.recvs) else s;
      if Live(t, i) && ev.writable {
        WriteSound(t, i, ev.sends);
        SteadyTrans(s, t, WriteTo(t, i, ev.sends));
      }
    }
  }

  lemma NobodyServed(s: State, fds: seq<int>, events: seq<Revents>)
    ensures ServeAll(s, fds, events, 0) == s
  {
  }

  lemma {:induction false} ServeAllSound(s: State, fds: seq<int>, events: seq<Revents>, n: nat)
    requires Sound(s) && AllSettled(s) && n <= |fds| && forall k :: 0 <= k < |fds| ==> fds[k] >= 0
    ensures Carries(s, ServeAll(s, fds, events, n))
  {
    if n == 0 {
      CarriesNothing(s);
    } else {
      ServeAllSound(s, fds, events, n - 1);
      var t := ServeAll(s, fds, events, n - 1);
      if n - 1 < |events| {
        ServeSound(t, fds[n - 1], events[n - 1]);
        CarriesOn(s, t, Serve(t, fds[n - 1], events[n - 1]));
      }
    }
  }

  /** Exactly the descriptors of live slots are polled. */
  lemma {:induction false} PolledAreLive(clients: seq<Conn>, fd: int)
    ensures fd in Polled(clients) <==> fd >= 0 && exists j :: 0 <= j < |clients| && clients[j].fd == fd
  {
    if clients != [] {
      var n := |clients| - 1;
      PolledAreLive(clients[..n], fd);
      assert clients == clients[..n] + [clients[n]];
      assert (exists j :: 0 <= j < |clients| && clients[j].fd == fd)
        <==> (exists j :: 0 <= j < n && clients[..n][j].fd == fd) || clients[n].fd == fd;
    }
  }

  lemma PolledAreOpen(clients: seq<Conn>)
    ensures forall k :: 0 <= k < |Polled(clients)| ==> Polled(clients)[k] >= 0
  {
    forall k | 0 <= k < |Polled(clients)|
      ensures Polled(clients)[k] >= 0
    {
      PolledAreLive(clients, Polled(clients)[k]);
    }
  }

  predicate PassOk(s: State, p: Pass) {
    p.listening ==> AcceptsOk(s, p.accepts)
  }

  predicate RunOk(s: State, ps: seq<Pass>)
    decreases |ps|
  {
    ps != [] ==> RunOk(s, ps[..|ps| - 1]) && PassOk(Run(s, ps[..|ps| - 1]), ps[|ps| - 1])
  }

  lemma PassServes(s: State, p: Pass)
    ensures var t := if p.listening then AcceptAll(s, p.accepts) else s;
            PollPass(s, p) == ServeAll(t, Polled(s.clients), p.events, |Polled(s.clients)|)
  {
  }

  lemma PassSound(s: State, p: Pass)
    requires Sound(s) && AllSettled(s) && PassOk(s, p)
    ensures Sound(PollPass(s, p)) && AllSettled(PollPass(s, p))
  {
    PolledAreOpen(s.clients);
    var t := if p.listening then AcceptAll(s, p.accepts) else s;
    if p.listening {
      AcceptSound(s, p.accepts);
    }
    ServeAllSound(t, Polled(s.clients), p.events, |Polled(s.clients)|);
  }

  lemma PassGrows(s: State, p: Pass)
    requires Sound(s) && AllSettled(s) && PassOk(s, p)
    ensures Grown(s, PollPass(s, p))
  {
    PolledAreOpen(s.clients);
    var t := if p.listening then AcceptAll(s, p.accepts) else s;
    if p.listening {
      AcceptSound(s, p.accepts);
    }
    ServeAllSound(t, Polled(s.clients), p.events, |Polled(s.clients)|);
  }

  lemma {:induction false} NobodyAtFirst(clients: seq<Conn>)
    requires forall i :: 0 <= i < |clients| ==> clients[i].fd < 0
    ensures LiveCount(clients) == 0
  {
    if clients != [] {
      NobodyAtFirst(clients[..|clients| - 1]);
    }
  }

  lemma InitialSound(maxQueue: nat, calloc: nat -> bool)
    ensures Sound(Initial(maxQueue, calloc)) && AllSettled(Initial(maxQueue, calloc))
  {
    NobodyAtFirst(Initial(maxQueue, calloc).clients);
  }

  /** The core after any run in which accept returns only descriptors that are not open. */
  ghost predicate Reachable(s: State) {
    exists maxQueue: nat, calloc: nat -> bool, ps: seq<Pass> ::
      RunOk(Initial(maxQueue, calloc), ps) && s == Run(Initial(maxQueue, calloc), ps)
  }

  lemma {:induction false} RunSound(s: State, ps: seq<Pass>)
    requires Sound(s) && AllSettled(s) && RunOk(s, ps)
    ensures Sound(Run(s, ps)) && AllSettled(Run(s, ps))
    decreases |ps|
  {
    if ps != [] {
      RunSound(s, ps[..|ps| - 1]);
      PassSound(Run(s, ps[..|ps| - 1]), ps[|ps| - 1]);
    }
  }

  /** Over every run, channels are never removed, renamed or moved, and no broadcast or closed
      connection is forgotten. */
  lemma {:induction false} RunOnlyGrows(maxQueue: nat, calloc: nat -> bool, ps: seq<Pass>, k: nat)
    requires RunOk(Initial(maxQueue, calloc), ps) && k <= |ps|
    ensures Grown(Run(Initial(maxQueue, calloc), ps[..k]), Run(Initial(maxQueue, calloc), ps))
    decreases |ps|
  {
    var start := Initial(maxQueue, calloc);
    if k == |ps| {
      assert ps[..k] == ps;
    } else {
      var front := ps[..|ps| - 1];
      RunOnlyGrows(maxQueue, calloc, front, k);
      assert front[..k] == ps[..k];
      InitialSound(maxQueue, calloc);
      RunSound(start, front);
      PassGrows(Run(start, front), ps[|ps| - 1]);
    }
  }

  /** The invariant holds in every reachable state. */
  lemma ReachableIsSound(s: State)
    requires Reachable(s)
    ensures Sound(s) && AllSettled(s)
  {
    var maxQueue: nat, calloc: nat -> bool, ps: seq<Pass> :|
      RunOk(Initial(maxQueue, calloc), ps) && s == Run(Initial(maxQueue, calloc), ps);
    InitialSound(maxQueue, calloc);
    RunSound(Initial(maxQueue, calloc), ps);
  }
}
