/** Commands leave the buffer they are read from alone: what lets server.c read a frame's
    payload in place and move the rest of the buffer forward afterwards. */
module CoreClean {
  import opened Bytes
  import opened Wire
  import opened Core
  import opened CoreInvariant
  import opened CoreDelivery
  import opened CoreRun

  /** At every frame of a drain, the client is gone afterwards or its buffer is as before. */
  predicate DrainsCleanly(s: State, i: nat)
    requires i < |s.clients|
    decreases |s.clients[i].inbuf|
  {
    var b := s.clients[i].inbuf;
    FrameReady(b) ==>
      var t := Dispatch(s, i, FirstFrame(b));
      Live(t, i) ==> t.clients[i].inbuf == b && DrainsCleanly(Consume(t, i, AfterFirst(b)), i)
  }

  /** The same for every drain while reading. */
  predicate ReadsCleanly(s: State, i: nat, answers: seq<Recv>)
    requires i < |s.clients|
    decreases |answers|, if answers != [] && answers[0].Data? then |answers[0].bytes| else 0
  {
    if |s.clients[i].inbuf| >= INBUF_CAP || answers == [] then true
    else if answers[0].RecvInterrupted? then ReadsCleanly(s, i, answers[1..])
    else if answers[0].Data? && answers[0].bytes != [] then
      var n := Min(|answers[0].bytes|, INBUF_CAP - |s.clients[i].inbuf|);
      var t := Append(s, i, answers[0].bytes[..n]);
      && DrainsCleanly(t, i)
      && (Drain(t, i).ok ==> ReadsCleanly(Drain(t, i).state, i, Later(answers, n)))
    else true
  }

  lemma ChunkIsClean(s: State, i: nat, answers: seq<Recv>, n: nat)
    requires i < |s.clients| && HasRead(s, i, answers) && ReadsCleanly(s, i, answers)
    requires n == Min(|answers[0].bytes|, INBUF_CAP - |s.clients[i].inbuf|)
    ensures var t := Append(s, i, answers[0].bytes[..n]);
            && DrainsCleanly(t, i)
            && (Drain(t, i).ok ==> i < |Drain(t, i).state.clients|
                                   && ReadsCleanly(Drain(t, i).state, i, Later(answers, n)))
  {
  }

  predicate ServesCleanly(s: State, fd: int, ev: Revents) {
    var i := FindFd(s.clients, fd);
    i >= 0 && !ev.error && ev.readable ==> ReadsCleanly(s, i, ev.recvs)
  }

  lemma {:induction false} DrainIsClean(s: State, i: nat)
    requires Sound(s) && Live(s, i) && SettledBut(s, i) && Draining(s.clients[i])
    ensures DrainsCleanly(s, i)
    decreases |s.clients[i].inbuf|
  {
    var b := s.clients[i].inbuf;
    if FrameReady(b) && Live(Dispatch(s, i, FirstFrame(b)), i) {
      DispatchSound(s, i);
      DrainRound(s, i);
      DrainIsClean(Consume(Dispatch(s, i, FirstFrame(b)), i, AfterFirst(b)), i);
    }
  }

  lemma {:induction false} ReadIsClean(s: State, i: nat, answers: seq<Recv>)
    requires Sound(s) && AllSettled(s) && Live(s, i)
    ensures ReadsCleanly(s, i, answers)
    decreases |answers|, if answers != [] && answers[0].Data? then |answers[0].bytes| else 0
  {
    if |s.clients[i].inbuf| < INBUF_CAP && answers != [] {
      if answers[0].RecvInterrupted? {
        ReadIsClean(s, i, answers[1..]);
      } else if answers[0].Data? && answers[0].bytes != [] {
        var n := Min(|answers[0].bytes|, INBUF_CAP - |s.clients[i].inbuf|);
        var chunk := answers[0].bytes[..n];
        AppendSound(s, i, chunk);
        DrainIsClean(Append(s, i, chunk), i);
        ReadChunk(s, i, chunk);
        var d := Drain(Append(s, i, chunk), i);
        if d.ok {
          ReadIsClean(d.state, i, Later(answers, n));
        }
      }
    }
  }

  lemma ServeIsClean(s: State, fd: int, ev: Revents)
    requires Sound(s) && AllSettled(s) && fd >= 0
    ensures ServesCleanly(s, fd, ev)
  {
    var i := FindFd(s.clients, fd);
    if i >= 0 {
      ReadIsClean(s, i, ev.recvs);
    }
  }

  /** A state from which the reports on some descriptors can be served. */
  predicate Servable(s: State, fds: seq<int>) {
    Sound(s) && AllSettled(s) && forall k :: 0 <= k < |fds| ==> fds[k] >= 0
  }

  lemma NthIsClean(s: State, fds: seq<int>, events: seq<Revents>, n: nat)
    requires Servable(s, fds) && n < |fds| && n < |events|
    ensures ServesCleanly(ServeAll(s, fds, events, n), fds[n], events[n])
  {
    ServeAllSound(s, fds, events, n);
    ServeIsClean(ServeAll(s, fds, events, n), fds[n], events[n]);
  }

  /** One round of the loop over the polled descriptors takes s to t. */
  ghost predicate Serves(s: State, fd: int, events: seq<Revents>, k: nat, t: State) {
    if k < |events| then ServesCleanly(s, fd, events[k]) && t == Serve(s, fd, events[k]) else t == s
  }

  lemma NthRound(s: State, fds: seq<int>, events: seq<Revents>, k: nat)
    requires Servable(s, fds) && k < |fds|
    ensures Serves(ServeAll(s, fds, events, k), fds[k], events, k, ServeAll(s, fds, events, k + 1))
  {
    if k < |events| { NthIsClean(s, fds, events, k); }
  }

  ghost predicate RoundsServe(states: seq<State>, fds: seq<int>, events: seq<Revents>) {
    && |states| == |fds| + 1
    && forall k {:trigger fds[k]} :: 0 <= k < |fds| ==> Serves(states[k], fds[k], events, k, states[k + 1])
  }

  /** The states before and after each round of a pass. */
  lemma AllRounds(s: State, fds: seq<int>, events: seq<Revents>) returns (states: seq<State>)
    requires Servable(s, fds)
    ensures RoundsServe(states, fds, events)
    ensures states[0] == s && states[|fds|] == ServeAll(s, fds, events, |fds|)
  {
    states := seq(|fds| + 1, k requires 0 <= k <= |fds| => ServeAll(s, fds, events, k));
    NobodyServed(s, fds, events);
    forall k | 0 <= k < |fds| ensures Serves(states[k], fds[k], events, k, states[k + 1]) {
      NthRound(s, fds, events, k);
    }
  }

  lemma AcceptedServable(s: State, p: Pass)
    requires Sound(s) && AllSettled(s) && PassOk(s, p)
    ensures Servable(if p.listening then AcceptAll(s, p.accepts) else s, Polled(s.clients))
  {
    PolledAreOpen(s.clients);
    if p.listening {
      AcceptSound(s, p.accepts);
    }
  }

  /** The states of a pass: after accepting, and after each descriptor served. */
  lemma PassRounds(s: State, p: Pass) returns (states: seq<State>)
    requires Sound(s) && AllSettled(s) && PassOk(s, p)
    ensures |states| > |Polled(s.clients)|
    ensures states[0] == if p.listening then AcceptAll(s, p.accepts) else s
    ensures states[|Polled(s.clients)|] == PollPass(s, p) && Sound(PollPass(s, p)) && AllSettled(PollPass(s, p))
    ensures RoundsServe(states, Polled(s.clients), p.events)
  {
    PassSound(s, p);
    PassServes(s, p);
    AcceptedServable(s, p);
    states := AllRounds(if p.listening then AcceptAll(s, p.accepts) else s, Polled(s.clients), p.events);
  }

  /** In every pass from a reachable state, all reading is clean, report by report. */
  lemma PassIsClean(s: State, p: Pass, n: nat)
    requires Reachable(s) && PassOk(s, p) && n < |Polled(s.clients)| && n < |p.events|
    ensures var t := if p.listening then AcceptAll(s, p.accepts) else s;
            ServesCleanly(ServeAll(t, Polled(s.clients), p.events, n), Polled(s.clients)[n], p.events[n])
  {
    ReachableIsSound(s);
    AcceptedServable(s, p);
    NthIsClean(if p.listening then AcceptAll(s, p.accepts) else s, Polled(s.clients), p.events, n);
  }
}
