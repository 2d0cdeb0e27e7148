/** What the invariant means for clients of the core, in every reachable state. */
module CoreLaws {
  import opened Bytes
  import opened Wire
  import opened Core
  import opened CoreInvariant
  import opened CoreDelivery
  import opened CoreCommands
  import opened CoreRun

  // ------------------------------------------------------------- total order

  function Since(c: Conn, k: nat): Mark {
    if k < |c.history.since| then c.history.since[k] else Mark(0, 0)
  }

  /** The chat messages a client was queued on channel k since it joined: those sent,
      half sent and still in the queue. */
  function SeenOn(s: State, i: nat, k: nat): seq<Chat>
    requires i < |s.clients| && k < |s.channels|
  {
    var h := s.clients[i].history;
    ChatsIn(s.channels[k], h.accepted[Min(Since(s.clients[i], k).acceptedAt, |h.accepted|)..])
  }

  /** The broadcasts on channel k since the client joined. */
  function SaidSince(s: State, i: nat, k: nat): seq<Chat>
    requires i < |s.clients| && k < |s.channels|
  {
    LogFor(s.channels[k], s.log[Min(Since(s.clients[i], k).loggedAt, |s.log|)..])
  }

  /** Everything a member was queued on a channel since it joined is what was broadcast
      there since, in that order: nothing lost, doubled or swapped. */
  lemma MemberSeesTheLog(s: State, i: nat, k: nat)
    requires Reachable(s) && Live(s, i) && IsMember(s.clients[i], k)
    ensures k < |s.channels| && SeenOn(s, i, k) == SaidSince(s, i, k)
    ensures Since(s.clients[i], k).loggedAt <= |s.log|
  {
    ReachableIsSound(s);
    assert DeliveredTo(s.channels, s.log, s.clients[i]);
    assert InStep(s.channels[k], Since(s.clients[i], k), s.clients[i].history.accepted, s.log);
  }

  predicate SuffixOf<T(==)>(a: seq<T>, b: seq<T>) {
    |a| <= |b| && a == b[|b| - |a|..]
  }

  lemma {:induction false} LogForIsSuffix(channel: Bytes, log: seq<Chat>, from: nat)
    requires from <= |log|
    ensures SuffixOf(LogFor(channel, log[from..]), LogFor(channel, log))
  {
    if from < |log| {
      var n := |log| - 1;
      LogForIsSuffix(channel, log[..n], from);
      assert log[from..] == log[..n][from..] + [log[n]];
      assert log == log[..n] + [log[n]];
      LogForSnoc(channel, log[..n], from, log[n]);
      var a, b := LogFor(channel, log[..n][from..]), LogFor(channel, log[..n]);
      var c := if log[n].channel == channel then [log[n]] else [];
      assert b + c == b[..|b| - |a|] + (a + c);
    } else {
      assert log[from..] == [];
    }
  }

  /** Two members of a channel have seen the same messages in the same order, back to the
      moment when the later of them joined. */
  lemma MembersAgree(s: State, i: nat, j: nat, k: nat)
    requires Reachable(s) && Live(s, i) && Live(s, j)
    requires IsMember(s.clients[i], k) && IsMember(s.clients[j], k)
    requires Since(s.clients[i], k).loggedAt >= Since(s.clients[j], k).loggedAt
    ensures k < |s.channels| && SuffixOf(SeenOn(s, i, k), SeenOn(s, j, k))
  {
    MemberSeesTheLog(s, i, k);
    MemberSeesTheLog(s, j, k);
    var at, earlier := Since(s.clients[i], k).loggedAt, Since(s.clients[j], k).loggedAt;
    LogForOfLater(s.channels[k], s.log, earlier, at);
  }

  lemma RestOfRest<T>(s: seq<T>, a: nat, b: nat)
    requires a <= b <= |s|
    ensures s[a..][b - a..] == s[b..]
  {
  }

  lemma LogForOfLater(channel: Bytes, log: seq<Chat>, a: nat, b: nat)
    requires a <= b <= |log|
    ensures SuffixOf(LogFor(channel, log[b..]), LogFor(channel, log[a..]))
  {
    RestOfRest(log, a, b);
    LogForIsSuffix(channel, log[a..], b - a);
  }

  // ---------------------------------------------------------- outgoing stream

  /** For every pattern of partial sends: the bytes sent so far and the unsent rest are
      the frames accepted, so a peer reading frames gets a prefix of exactly those. */
  lemma PeerReadsAPrefix(s: State, i: nat)
    requires Reachable(s) && Live(s, i)
    ensures var h := s.clients[i].history;
      && Encodable(h.accepted)
      && h.sent + Unsent(s.clients[i].queue) == EncodeAll(h.accepted)
      && Parse(h.sent).frames <= h.accepted
      && !Malformed(Parse(h.sent).rest)
      && (s.clients[i].queue == [] ==> Parse(h.sent) == Parsed(h.accepted, []))
  {
    ReachableIsSound(s);
    PrefixParsesToPrefix(s.clients[i].history.accepted, s.clients[i].history.sent);
  }

  /** The same for a connection that was closed, at whatever point. */
  lemma ClosedPeerReadAPrefix(s: State, k: nat)
    requires Reachable(s) && k < |s.closed|
    ensures var h := s.closed[k].history;
      Parse(h.sent).frames <= h.accepted && !Malformed(Parse(h.sent).rest)
  {
    ReachableIsSound(s);
    assert ClosedOk(s.closed[k].history);
    PrefixParsesToPrefix(s.closed[k].history.accepted, s.closed[k].history.sent);
  }

  /** The queue's byte account is exact, never over the limit, and only the head frame is
      partly sent. */
  lemma QueueAccount(s: State, i: nat)
    requires Reachable(s) && Live(s, i)
    ensures var c := s.clients[i];
      && c.queuedBytes == TotalBytes(c.queue) <= s.maxQueue
      && |Unsent(c.queue)| <= c.queuedBytes
      && (c.queue == [] <==> c.queuedBytes == 0)
      && forall n :: 0 <= n < |c.queue| ==> c.queue[n].sent < |c.queue[n].data| && (n > 0 ==> c.queue[n].sent == 0)
  {
    ReachableIsSound(s);
    UnsentIsShorter(s.clients[i].queue);
  }

  lemma {:induction false} UnsentIsShorter(q: seq<Queued>)
    ensures |Unsent(q)| <= TotalBytes(q)
    ensures q != [] && q[0].sent < |q[0].data| ==> TotalBytes(q) > 0
  {
    if q != [] {
      UnsentIsShorter(q[1..]);
    }
  }

  // -------------------------------------------------------- chunking independence

  /** What was handled, and what is in the buffer, depends only on the bytes received and
      not on how recv cut them up; and recv always has room, or a malformed header is in
      front. */
  lemma HandledIsTheParse(s: State, i: nat)
    requires Reachable(s) && Live(s, i)
    ensures var c := s.clients[i];
      && c.history.dispatched == Parse(c.history.received).frames
      && c.inbuf == Parse(c.history.received).rest
      && (|c.inbuf| < INBUF_CAP || Malformed(c.inbuf))
  {
    ReachableIsSound(s);
    assert Settled(s.clients[i]);
    RestIsStuck(s.clients[i].history.received);
  }

  lemma ChunksDoNotMatter(s: State, i: nat, t: State, j: nat)
    requires Reachable(s) && Live(s, i) && Reachable(t) && Live(t, j)
    requires s.clients[i].history.received == t.clients[j].history.received
    ensures s.clients[i].history.dispatched == t.clients[j].history.dispatched
    ensures s.clients[i].inbuf == t.clients[j].inbuf
  {
    HandledIsTheParse(s, i);
    HandledIsTheParse(t, j);
  }

  /** A closed connection handled a prefix of what its bytes held. */
  lemma ClosedHandledAPrefix(s: State, k: nat)
    requires Reachable(s) && k < |s.closed|
    ensures s.closed[k].history.dispatched <= Parse(s.closed[k].history.received).frames
  {
    ReachableIsSound(s);
    assert ClosedOk(s.closed[k].history);
  }

  /** What draining adds to the count of malformed frames. */
  predicate CountedOnce(s: State, i: nat, r: Outcome) {
    && s.stats.malformed <= r.state.stats.malformed <= s.stats.malformed + 1
    && (r.ok ==> r.state.stats.malformed == s.stats.malformed)
    && (!r.ok && Live(r.state, i) ==> r.state.stats.malformed == s.stats.malformed + 1)
  }

  lemma {:induction false} DrainCounts(s: State, i: nat)
    requires Sound(s) && Live(s, i) && SettledBut(s, i) && Draining(s.clients[i])
    ensures CountedOnce(s, i, Drain(s, i))
    decreases |s.clients[i].inbuf|
  {
    var b := s.clients[i].inbuf;
    if FrameReady(b) {
      DispatchCounts(s, i);
      if Live(Dispatch(s, i, FirstFrame(b)), i) {
        DrainRound(s, i);
        DrainCounts(Consume(Dispatch(s, i, FirstFrame(b)), i, AfterFirst(b)), i);
      }
    } else if Malformed(b) {
      MalformedDrain(s, i);
    }
  }

  lemma DispatchCounts(s: State, i: nat)
    requires Sound(s) && Live(s, i) && SettledBut(s, i)
    requires Draining(s.clients[i]) && FrameReady(s.clients[i].inbuf)
    ensures Dispatch(s, i, FirstFrame(s.clients[i].inbuf)).stats.malformed == s.stats.malformed
  {
    var f := FirstFrame(s.clients[i].inbuf);
    DispatchingSound(s, i);
    HandleFrameSound(Dispatching(s, i, f), i, f);
  }

  lemma MalformedDrain(s: State, i: nat)
    requires Good(s) && Live(s, i) && Malformed(s.clients[i].inbuf)
    ensures var d := Drain(s, i);
      && !d.ok && d.state.stats.malformed == s.stats.malformed + 1
      && (Live(d.state, i) ==> d.state.clients[i].history.dispatched == s.clients[i].history.dispatched
                               && d.state.clients[i].inbuf == s.clients[i].inbuf)
  {
    assert Good(CountMalformed(s));
    DeliverKeeps(CountMalformed(s), i, Frame(ERROR, Ascii("malformed frame")));
  }

  /** A recv that delivers one chunk and then has no more. */
  lemma ReadOnce(s: State, i: nat, chunk: Bytes)
    requires i < |s.clients| && chunk != [] && |s.clients[i].inbuf| + |chunk| <= INBUF_CAP
    requires var d := Drain(Append(s, i, chunk), i); d.ok ==> |d.state.clients[i].inbuf| < INBUF_CAP
    ensures ReadFrom(s, i, [Data(chunk)]) == Drain(Append(s, i, chunk), i).state
  {
    var d := Drain(Append(s, i, chunk), i);
    WholeChunk(chunk, INBUF_CAP - |s.clients[i].inbuf|);
    ReadFromChunk(s, i, [Data(chunk)], |chunk|);
    if d.ok { NothingLeft(d.state, i); }
  }

  lemma NothingLeft(s: State, i: nat)
    requires i < |s.clients| && |s.clients[i].inbuf| < INBUF_CAP
    ensures ReadFrom(s, i, []) == s
  {
  }

  lemma WholeChunk(chunk: Bytes, room: nat)
    requires |chunk| <= room
    ensures Min(|chunk|, room) == |chunk| && chunk[..Min(|chunk|, room)] == chunk && [Data(chunk)][1..] == []
  {
  }

  /** The error count exactly: a chunk adds one to it when a malformed header is in front once
      the chunk has been worked off, and otherwise nothing; so behind a malformed header
      every further chunk counts again. At most one is added even if the client is dropped. */
  lemma ChunkCountsExactly(s: State, i: nat, chunk: Bytes)
    requires Reachable(s) && Live(s, i) && chunk != [] && |s.clients[i].inbuf| + |chunk| <= INBUF_CAP
    ensures var r := ReadFrom(s, i, [Data(chunk)]);
      && s.stats.malformed <= r.stats.malformed <= s.stats.malformed + 1
      && (Live(r, i) ==>
            && r.stats.malformed == s.stats.malformed + (if Malformed(r.clients[i].inbuf) then 1 else 0)
            && r.clients[i].inbuf == Parse(s.clients[i].history.received + chunk).rest)
  {
    ReachableIsSound(s);
    var t := Append(s, i, chunk);
    AppendSound(s, i, chunk);
    DrainSound(t, i);
    DrainCounts(t, i);
    ReadOnce(s, i, chunk);
    var d := Drain(t, i);
    if Live(d.state, i) {
      assert Settled(d.state.clients[i]);
      if d.ok { DrainLeavesNoHeader(t, i); }
    }
  }

  /** Draining succeeds only in front of an incomplete frame. */
  lemma {:induction false} DrainLeavesNoHeader(s: State, i: nat)
    requires Sound(s) && Live(s, i) && SettledBut(s, i) && Draining(s.clients[i])
    requires Drain(s, i).ok
    ensures Live(Drain(s, i).state, i) && !Malformed(Drain(s, i).state.clients[i].inbuf)
    decreases |s.clients[i].inbuf|
  {
    var b := s.clients[i].inbuf;
    if FrameReady(b) {
      if Live(Dispatch(s, i, FirstFrame(b)), i) {
        DrainRound(s, i);
        DrainLeavesNoHeader(Consume(Dispatch(s, i, FirstFrame(b)), i, AfterFirst(b)), i);
      }
    }
  }

  /** Behind a malformed header nothing is handled any more, but every further chunk is
      counted as one more malformed frame: the error count does depend on the chunks. */
  lemma EachChunkCountsAgain(s: State, i: nat, chunk: Bytes)
    requires Reachable(s) && Live(s, i) && Malformed(s.clients[i].inbuf)
    requires chunk != [] && |s.clients[i].inbuf| + |chunk| <= INBUF_CAP
    ensures var r := ReadFrom(s, i, [Data(chunk)]);
      && r.stats.malformed == s.stats.malformed + 1
      && (Live(r, i) ==> r.clients[i].history.dispatched == s.clients[i].history.dispatched
                         && r.clients[i].inbuf == s.clients[i].inbuf + chunk)
  {
    ReachableIsSound(s);
    MalformedStaysMalformed(s.clients[i].inbuf, chunk);
    AppendSound(s, i, chunk);
    MalformedDrain(Append(s, i, chunk), i);
    ReadOnce(s, i, chunk);
  }

  // ------------------------------------------------------------- no stale event

  lemma {:induction false} FdIsUnique(s: State, j: nat)
    requires Good(s) && Live(s, j)
    ensures FindFd(s.clients, s.clients[j].fd) == j
  {
    var r := FindFd(s.clients, s.clients[j].fd);
    if 0 <= r < j {
      assert false;
    }
  }

  /** Every report of a pass is applied to the connection that owned the descriptor when
      poll was asked, or to nobody: never to a newcomer, whatever handlers closed and
      accept_clients admitted in between. */
  lemma NoStaleEvent(s: State, p: Pass, n: nat, j: nat)
    requires Reachable(s) && PassOk(s, p) && n < |Polled(s.clients)|
    requires j < |s.clients| && s.clients[j].fd == Polled(s.clients)[n]
    ensures var fds := Polled(s.clients);
      var before := ServeAll(if p.listening then AcceptAll(s, p.accepts) else s, fds, p.events, n);
      var hit := FindFd(before.clients, fds[n]);
      && s.clients[j].fd >= 0 && j < |before.clients|
      && (hit == -1 || (hit == j && before.clients[j].history.serial == s.clients[j].history.serial))
      && (hit == -1 <==> before.clients[j] == Blank())
  {
    ReachableIsSound(s);
    PolledAreOpen(s.clients);
    var t := if p.listening then AcceptAll(s, p.accepts) else s;
    if p.listening {
      AcceptSound(s, p.accepts);
    }
    ServeAllSound(t, Polled(s.clients), p.events, n);
    var before := ServeAll(t, Polled(s.clients), p.events, n);
    assert t.clients[j] == s.clients[j];
    FdIsUnique(t, j);
    if Live(before, j) {
      FdIsUnique(before, j);
    } else {
      var hit := FindFd(before.clients, s.clients[j].fd);
      if hit >= 0 {
        assert before.clients[hit].fd == t.clients[hit].fd;
        FdIsUnique(t, hit);
      }
    }
  }

  // ---------------------------------------------------------------- sessions

  /** A client with an active channel is a member of it, under that index. */
  lemma ActiveIsJoined(s: State, i: nat)
    requires Good(s) && Live(s, i) && s.clients[i].active != []
    ensures IsMember(s.clients[i], FindChannel(s.channels, s.clients[i].active))
    ensures NameOk(s.clients[i].active, 1, CHANNEL_CAP) && NameOk(s.clients[i].username, 1, NAME_CAP)
  {
    assert IsActive(s.channels, s.clients[i]);
  }

  lemma ThreeStringsFit(a: Bytes, b: Bytes, c: Bytes)
    requires |a| <= CHANNEL_CAP && |b| <= NAME_CAP && |c| <= TEXT_CAP
    ensures Written([a, b, c], MAX_PAYLOAD).Some? && |Written([a, b, c], MAX_PAYLOAD).value| <= 1094
  {
    PackStringsSnoc([], a);
    PackStringsSnoc([a], b);
    PackStringsSnoc([a, b], c);
    assert [] + [a] == [a] && [a] + [b] == [a, b] && [a, b] + [c] == [a, b, c];
  }

  lemma TwoStringsFit(a: Bytes, b: Bytes)
    requires |a| <= NAME_CAP && |b| <= TEXT_CAP
    ensures Written([a, b], MAX_PAYLOAD).Some? && |Written([a, b], MAX_PAYLOAD).value| <= 1060
  {
    PackStringsSnoc([], a);
    PackStringsSnoc([a], b);
    assert [] + [a] == [a] && [a] + [b] == [a, b];
  }

  /** SAY with an active channel and a text always reaches the broadcast: its channel is
      in the table, the sender is a member, and the payload (at most 1094 bytes) fits. Sound
      is what holds whenever a frame is handled, also in the middle of a drain. */
  lemma SayReachesItsChannel(s: State, i: nat, payload: Bytes)
    requires Sound(s) && Live(s, i) && s.clients[i].registered && s.clients[i].active != []
    requires ReadText(payload).Some?
    ensures var c := s.clients[i];
      var text := ReadText(payload).value;
      var written := Written([c.active, c.username, text], MAX_PAYLOAD);
      && IsMember(c, FindChannel(s.channels, c.active))
      && written.Some? && |written.value| <= 1094
      && HandleSay(s, i, payload).log == s.log + [Chat(c.active, c.username, text)]
  {
    ActiveIsJoined(s, i);
    TextIsShort(payload);
    var c := s.clients[i];
    ThreeStringsFit(c.active, c.username, ReadText(payload).value);
    var f := Frame(CHAT, Written([c.active, c.username, ReadText(payload).value], MAX_PAYLOAD).value);
    FanoutKeeps(s, |s.clients|, FindChannel(s.channels, c.active), -1, f);
  }

  lemma TextIsShort(payload: Bytes)
    requires ReadText(payload).Some?
    ensures |ReadText(payload).value| <= TEXT_CAP
  {
    ReadersAgree(payload, 0, [TEXT_CAP + 1]);
  }

  lemma NamesAreUnique(s: State, i: nat, j: nat)
    requires Reachable(s) && i < j && Live(s, i) && Live(s, j)
    requires s.clients[i].registered && s.clients[j].registered
    ensures NameOk(s.clients[i].username, 1, NAME_CAP) && NameOk(s.clients[j].username, 1, NAME_CAP)
    ensures s.clients[i].username != s.clients[j].username
  {
    ReachableIsSound(s);
    assert Apart(s.clients[i], s.clients[j]);
  }

  /** The counters are what they are called. */
  lemma CountersAreExact(s: State)
    requires Reachable(s)
    ensures s.stats.current == LiveCount(s.clients)
    ensures s.stats.total == LiveCount(s.clients) + |s.closed|
    ensures s.stats.channelMessages == |s.log|
    ensures s.stats.queueDisconnects == OverflowCount(s.closed)
  {
    ReachableIsSound(s);
  }

  /** current_connections is never zero when a connection is closed, so the guard against
      going below zero is never needed. */
  lemma {:induction false} GuardIsNeverNeeded(s: State, i: nat)
    requires Reachable(s) && Live(s, i)
    ensures s.stats.current > 0
  {
    ReachableIsSound(s);
    LiveCountUpdate(s.clients, i, Blank());
  }

  // ----------------------------------------------------------- direct messages

  /** Relaying to a target with room queues exactly the message for it and the answer for
      the sender, who is dropped if there is no room or memory for that; otherwise only the
      target is dropped. */
  predicate Relayed(s: State, i: nat, target: nat, f: Frame, r: State)
    requires i < |s.clients| && target < |s.clients| && |f.payload| <= MAX_PAYLOAD
  {
    var answer := Frame(OK, Ascii("direct message sent"));
    if Takes(s, target, f) then
      var mid := s.clients[target := Push(s.clients[target], f)];
      && r.stats.directMessages == s.stats.directMessages + 1
      && if Room(s.maxQueue, mid[i].queue, answer) && s.calloc(s.allocations + 1)
         then r.clients == mid[i := Push(mid[i], answer)] && r.closed == s.closed
         else r.clients == mid[i := Blank()] && r.closed == s.closed + [Closed(mid[i].history, Overflow)]
    else
      && r.stats.directMessages == s.stats.directMessages
      && r.clients == s.clients[target := Blank()]
      && r.closed == s.closed + [Closed(s.clients[target].history, Overflow)]
  }

  lemma RelayRelays(s: State, i: nat, target: nat, f: Frame)
    requires Good(s) && Live(s, i) && Live(s, target) && |f.payload| <= MAX_PAYLOAD
    ensures Relayed(s, i, target, f, Relay(s, i, target, f))
  {
    EnqueueExactly(s, target, f);
    if Takes(s, target, f) { TakenRelays(s, i, target, f); }
  }

  lemma TakenRelays(s: State, i: nat, target: nat, f: Frame)
    requires Good(s) && Live(s, i) && Live(s, target) && |f.payload| <= MAX_PAYLOAD && Takes(s, target, f)
    ensures Relayed(s, i, target, f, Relay(s, i, target, f))
  {
    EnqueueKeeps(s, target, f);
    EnqueueExactly(s, target, f);
    AnswerAfter(Enqueue(s, target, f).state, i);
  }

  lemma AnswerAfter(s: State, i: nat)
    requires Good(s) && Live(s, i)
    ensures var answer, r := Frame(OK, Ascii("direct message sent")), Say(CountDirect(s), i, OK, "direct message sent");
      && r.stats.directMessages == s.stats.directMessages + 1
      && if Room(s.maxQueue, s.clients[i].queue, answer) && s.calloc(s.allocations)
         then r.clients == s.clients[i := Push(s.clients[i], answer)] && r.closed == s.closed
         else r.clients == s.clients[i := Blank()] && r.closed == s.closed + [Closed(s.clients[i].history, Overflow)]
  {
    assert Good(CountDirect(s));
    DeliverExactly(CountDirect(s), i, Frame(OK, Ascii("direct message sent")));
  }

  lemma DirectIsShort(payload: Bytes)
    requires ReadDirect(payload).Some?
    ensures |ReadDirect(payload).value.text| <= TEXT_CAP
  {
    ReadersAgree(payload, 0, [NAME_CAP + 1, TEXT_CAP + 1]);
  }

  /** A direct message that the target has room for gives the target exactly one DM_RECV
      and the sender exactly one confirmation (or drops the sender); one that it has no
      room for drops the target and changes nobody else, so the sender hears nothing. */
  lemma DirectMessageOutcome(s: State, i: nat, payload: Bytes)
    requires Sound(s) && Live(s, i) && s.clients[i].registered
    requires ReadDirect(payload).Some? && FindUser(s.clients, ReadDirect(payload).value.target) >= 0
    ensures var dm := ReadDirect(payload).value;
      var written := Written([s.clients[i].username, dm.text], MAX_PAYLOAD);
      && written.Some? && |written.value| <= 1060
      && Relayed(s, i, FindUser(s.clients, dm.target), Frame(DM_RECV, written.value), HandleDm(s, i, payload))
  {
    var dm := ReadDirect(payload).value;
    DirectIsShort(payload);
    assert SessionOk(s.channels, s.clients[i]);
    TwoStringsFit(s.clients[i].username, dm.text);
    var f := Frame(DM_RECV, Written([s.clients[i].username, dm.text], MAX_PAYLOAD).value);
    RelayRelays(s, i, FindUser(s.clients, dm.target), f);
  }
}
