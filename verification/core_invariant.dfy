/** What every reachable state of the core satisfies, except for the delivery order
    (core_delivery.dfy), and the proof that each primitive keeps it. */
module CoreInvariant {
  import opened Bytes
  import opened Wire
  import opened Core

  // ------------------------------------------------------------ one connection

  /** Registration, memberships and the active channel fit together. */
  predicate SessionOk(channels: seq<Bytes>, c: Conn) {
    && |c.joined| == MAX_CHANNELS && |c.history.since| == MAX_CHANNELS
    && (c.registered ==> NameOk(c.username, 1, NAME_CAP))
    && (!c.registered ==> c.username == [] && c.active == [] && forall k :: 0 <= k < |c.joined| ==> !c.joined[k])
    && (forall k :: 0 <= k < |c.joined| && c.joined[k] ==> k < |channels|)
    && (c.active != [] ==> IsActive(channels, c))
  }

  predicate IsActive(channels: seq<Bytes>, c: Conn) {
    0 <= FindChannel(channels, c.active) < |c.joined| && c.joined[FindChannel(channels, c.active)]
  }

  function TotalBytes(q: seq<Queued>): nat {
    if q == [] then 0 else |q[0].data| + TotalBytes(q[1..])
  }

  /** The bytes of the queue that send has not taken yet. */
  function Unsent(q: seq<Queued>): Bytes {
    if q == [] then [] else q[0].data[Min(q[0].sent, |q[0].data|)..] + Unsent(q[1..])
  }

  /** The byte account is exact and bounded, and only the head may be partly sent. */
  predicate QueueOk(maxQueue: nat, c: Conn) {
    && c.queuedBytes == TotalBytes(c.queue) <= maxQueue
    && (forall k :: 0 <= k < |c.queue| ==> c.queue[k].sent < |c.queue[k].data|)
    && (forall k :: 1 <= k < |c.queue| ==> c.queue[k].sent == 0)
  }

  /** Bytes taken by send, followed by what is left, are the frames accepted. */
  predicate StreamOk(c: Conn) {
    && SmallFrames(c.history.accepted) && Encodable(c.history.accepted)
    && c.history.sent + Unsent(c.queue) == EncodeAll(c.history.accepted)
  }

  /** Every frame handled so far is one the received bytes hold, in order. */
  predicate InputOk(h: History) {
    h.dispatched <= Parse(h.received).frames
  }

  /** All complete frames received are handled, and the buffer holds the rest. */
  predicate Settled(c: Conn) {
    Parse(c.history.received) == Parsed(c.history.dispatched, c.inbuf)
  }

  predicate ConnOk(channels: seq<Bytes>, maxQueue: nat, c: Conn) {
    && c.fd >= 0
    && |c.inbuf| <= INBUF_CAP
    && SessionOk(channels, c) && QueueOk(maxQueue, c) && StreamOk(c) && InputOk(c.history)
  }

  /** What remains true of a connection after it was closed. */
  predicate ClosedOk(h: History) {
    && InputOk(h)
    && SmallFrames(h.accepted) && Encodable(h.accepted)
    && h.sent <= EncodeAll(h.accepted)
  }

  // ----------------------------------------------------------------- the state

  predicate TableOk(channels: seq<Bytes>) {
    && |channels| <= MAX_CHANNELS
    && (forall k :: 0 <= k < |channels| ==> NameOk(channels[k], 1, CHANNEL_CAP))
    && (forall j, k :: 0 <= j < k < |channels| ==> channels[j] != channels[k])
  }

  predicate Apart(c: Conn, d: Conn) {
    && c.fd != d.fd
    && c.history.serial != d.history.serial
    && (c.registered && d.registered ==> c.username != d.username)
  }

  predicate AllApart(clients: seq<Conn>) {
    forall j, k :: 0 <= j < k < |clients| && clients[j].fd >= 0 && clients[k].fd >= 0 ==> Apart(clients[j], clients[k])
  }

  function LiveCount(clients: seq<Conn>): nat {
    if clients == [] then 0
    else LiveCount(clients[..|clients| - 1]) + (if clients[|clients| - 1].fd >= 0 then 1 else 0)
  }

  function OverflowCount(closed: seq<Closed>): nat {
    if closed == [] then 0
    else OverflowCount(closed[..|closed| - 1]) + (if closed[|closed| - 1].reason == Overflow then 1 else 0)
  }

  predicate TalliesOk(s: State) {
    && s.stats.current == LiveCount(s.clients)
    && s.stats.total == LiveCount(s.clients) + |s.closed|
    && s.stats.channelMessages == |s.log|
  }

  predicate CountersOk(s: State) {
    TalliesOk(s) && s.stats.queueDisconnects == OverflowCount(s.closed)
  }

  predicate ClientsOk(s: State) {
    && |s.clients| == MAX_CLIENTS
    && (forall i :: 0 <= i < |s.clients| ==> s.clients[i] == Blank() || ConnOk(s.channels, s.maxQueue, s.clients[i]))
    && (forall i :: 0 <= i < |s.clients| && s.clients[i].fd >= 0 ==> s.clients[i].history.serial < s.stats.total)
  }

  predicate HistoryOk(s: State) {
    forall k :: 0 <= k < |s.closed| ==> ClosedOk(s.closed[k].history)
  }

  predicate Good(s: State) {
    ClientsOk(s) && TableOk(s.channels) && AllApart(s.clients) && CountersOk(s) && HistoryOk(s)
  }

  // ------------------------------------------------ what a command may change

  /** The connection is the same and its input untouched; frames may have been queued. */
  predicate SameConnection(c: Conn, d: Conn) {
    && d.fd == c.fd >= 0 && d.inbuf == c.inbuf
    && d.history.serial == c.history.serial
    && d.history.received == c.history.received
    && d.history.dispatched == c.history.dispatched
    && d.history.sent == c.history.sent
    && c.history.accepted <= d.history.accepted
    && c.queue <= d.queue
  }

  /** Among the connections closed since, there is the one of that number. */
  predicate Recorded(serial: nat, before: seq<Closed>, after: seq<Closed>) {
    exists k :: |before| <= k < |after| && after[k].history.serial == serial
  }

  /** Whoever has gone is among the connections closed since. */
  predicate Traced(s: State, r: State)
    requires |r.clients| == |s.clients|
  {
    forall j :: 0 <= j < |s.clients| && s.clients[j].fd >= 0 && r.clients[j].fd < 0 ==>
      Recorded(s.clients[j].history.serial, s.closed, r.closed)
  }

  /** Handling a command only drops clients, appends to queues, tables and logs, and
      changes what clients are called and where they are. */
  ghost predicate Calm(s: State, r: State) {
    && |r.clients| == |s.clients| && Traced(s, r)
    && (forall j :: 0 <= j < |s.clients| ==> r.clients[j] == Blank() || SameConnection(s.clients[j], r.clients[j]))
    && s.channels <= r.channels && s.log <= r.log && s.closed <= r.closed
    && r.stats.total == s.stats.total && r.stats.malformed == s.stats.malformed
    && r.maxQueue == s.maxQueue && r.calloc == s.calloc
  }

  lemma RecordedOn(serial: nat, a: seq<Closed>, b: seq<Closed>, c: seq<Closed>)
    requires a <= b <= c && (Recorded(serial, a, b) || Recorded(serial, b, c))
    ensures Recorded(serial, a, c)
  {
    if Recorded(serial, a, b) {
      var k :| |a| <= k < |b| && b[k].history.serial == serial;
      assert c[k] == b[k];
    }
  }

  lemma CalmTrans(s: State, t: State, r: State)
    requires Calm(s, t) && Calm(t, r)
    ensures Calm(s, r)
  {
    forall j | 0 <= j < |s.clients| && s.clients[j].fd >= 0 && r.clients[j].fd < 0
      ensures Recorded(s.clients[j].history.serial, s.closed, r.closed)
    {
      RecordedOn(s.clients[j].history.serial, s.closed, t.closed, r.closed);
    }
  }

  // ------------------------------------------------------------------ counting

  lemma {:induction false} LiveCountUpdate(clients: seq<Conn>, i: nat, c: Conn)
    requires i < |clients|
    ensures LiveCount(clients[i := c])
         == LiveCount(clients) - (if clients[i].fd >= 0 then 1 else 0) + (if c.fd >= 0 then 1 else 0)
  {
    var n := |clients| - 1;
    if i == n {
      assert clients[i := c][..n] == clients[..n];
    } else {
      assert clients[i := c][..n] == clients[..n][i := c];
      LiveCountUpdate(clients[..n], i, c);
    }
  }

  lemma OverflowCountSnoc(closed: seq<Closed>, x: Closed)
    ensures OverflowCount(closed + [x]) == OverflowCount(closed) + (if x.reason == Overflow then 1 else 0)
  {
    assert (closed + [x])[..|closed|] == closed;
  }

  // -------------------------------------------------------------------- queues

  lemma {:induction false} QueueSnoc(q: seq<Queued>, x: Queued)
    requires x.sent == 0
    ensures TotalBytes(q + [x]) == TotalBytes(q) + |x.data|
    ensures Unsent(q + [x]) == Unsent(q) + x.data
  {
    if q == [] {
      assert q + [x] == [x];
      assert Unsent([x]) == x.data + Unsent([]);
    } else {
      assert (q + [x])[1..] == q[1..] + [x];
      QueueSnoc(q[1..], x);
    }
  }

  lemma PushQueue(maxQueue: nat, c: Conn, f: Frame)
    requires QueueOk(maxQueue, c)
    requires |f.payload| <= MAX_PAYLOAD && c.queuedBytes + HEADER_SIZE + |f.payload| <= maxQueue
    ensures QueueOk(maxQueue, Push(c, f))
  {
    QueueSnoc(c.queue, Queued(EncodeFrame(f), 0));
  }

  lemma PushStream(c: Conn, f: Frame)
    requires StreamOk(c) && |f.payload| <= MAX_PAYLOAD
    ensures StreamOk(Push(c, f))
  {
    var data := EncodeFrame(f);
    QueueSnoc(c.queue, Queued(data, 0));
    EncodeAllSnoc(c.history.accepted, f);
    ConcatAssociates(c.history.sent, Unsent(c.queue), data);
  }

  lemma PushKeeps(channels: seq<Bytes>, maxQueue: nat, c: Conn, f: Frame)
    requires ConnOk(channels, maxQueue, c)
    requires |f.payload| <= MAX_PAYLOAD && c.queuedBytes + HEADER_SIZE + |f.payload| <= maxQueue
    ensures ConnOk(channels, maxQueue, Push(c, f))
  {
    PushQueue(maxQueue, c, f);
    PushStream(c, f);
    assert SessionOk(channels, Push(c, f));
  }

  // ---------------------------------------------------------------- primitives

  /** A slot that is emptied, or whose connection keeps its identity under a name nobody
      else has, stays apart from all others. */
  lemma ApartKeeps(s: State, i: nat, c: Conn)
    requires AllApart(s.clients) && Live(s, i)
    requires c.fd < 0 || (c.fd == s.clients[i].fd && c.history.serial == s.clients[i].history.serial)
    requires c.fd >= 0 && c.registered ==> !InUse(s, c.username, i)
    ensures AllApart(s.clients[i := c])
  {
  }

  lemma OwnNameIsFree(s: State, i: nat)
    requires AllApart(s.clients) && Live(s, i) && s.clients[i].registered
    ensures !InUse(s, s.clients[i].username, i)
  {
  }

  lemma SlotKeeps(s: State, i: nat, c: Conn)
    requires ClientsOk(s) && Live(s, i)
    requires c == Blank() || ConnOk(s.channels, s.maxQueue, c)
    requires c.fd >= 0 ==> c.history.serial == s.clients[i].history.serial
    ensures ClientsOk(Update(s, i, c))
  {
  }

  /** Replacing a live client by one that is fine and apart from all the others. */
  lemma UpdateKeeps(s: State, i: nat, c: Conn)
    requires Good(s) && Live(s, i)
    requires ConnOk(s.channels, s.maxQueue, c)
    requires c.fd == s.clients[i].fd && c.history.serial == s.clients[i].history.serial
    requires c.registered ==> !InUse(s, c.username, i)
    ensures Good(Update(s, i, c))
  {
    SlotKeeps(s, i, c);
    ApartKeeps(s, i, c);
    LiveCountUpdate(s.clients, i, c);
  }

  lemma ClosingKeeps(channels: seq<Bytes>, maxQueue: nat, c: Conn)
    requires ConnOk(channels, maxQueue, c)
    ensures ClosedOk(c.history)
  {
  }

  lemma CountersOnReset(s: State, i: nat, why: Reason)
    requires Live(s, i) && TalliesOk(s)
    ensures var r := Reset(s, i, why);
      && TalliesOk(r) && r.stats.current == s.stats.current - 1
      && r.stats.queueDisconnects == s.stats.queueDisconnects
      && OverflowCount(r.closed) == OverflowCount(s.closed) + (if why == Overflow then 1 else 0)
  {
    LiveCountUpdate(s.clients, i, Blank());
    OverflowCountSnoc(s.closed, Closed(s.clients[i].history, why));
  }

  lemma HistoryOnReset(s: State, i: nat, why: Reason)
    requires ClientsOk(s) && HistoryOk(s) && Live(s, i)
    ensures HistoryOk(Reset(s, i, why))
  {
    var r := Reset(s, i, why);
    ClosingKeeps(s.channels, s.maxQueue, s.clients[i]);
    forall k | 0 <= k < |r.closed| ensures ClosedOk(r.closed[k].history) {
      if k < |s.closed| { assert ClosedOk(s.closed[k].history); }
    }
  }

  lemma CalmOnReset(s: State, i: nat, why: Reason)
    requires ClientsOk(s) && Live(s, i)
    ensures Calm(s, Reset(s, i, why)) && !Live(Reset(s, i, why), i)
  {
    var r := Reset(s, i, why);
    assert r.closed[|s.closed|].history.serial == s.clients[i].history.serial;
  }

  lemma CalmOnOverflow(s: State, i: nat)
    requires ClientsOk(s) && Live(s, i)
    ensures Calm(s, Overflowed(s, i)) && !Live(Overflowed(s, i), i)
  {
    CalmOnReset(s.(stats := s.stats.(queueDisconnects := s.stats.queueDisconnects + 1)), i, Overflow);
  }

  lemma CalmStays(s: State)
    requires ClientsOk(s)
    ensures Calm(s, s)
  {
  }

  /** A slot is emptied and the counters and the list of closed connections are right. */
  lemma EmptiedKeeps(s: State, i: nat, r: State)
    requires ClientsOk(s) && AllApart(s.clients) && TableOk(s.channels) && Live(s, i)
    requires r.clients == s.clients[i := Blank()] && r.channels == s.channels && r.maxQueue == s.maxQueue
    requires r.stats.total == s.stats.total && CountersOk(r) && HistoryOk(r)
    ensures Good(r)
  {
    SlotKeeps(s, i, Blank());
    ApartKeeps(s, i, Blank());
    assert ClientsOk(r) by { assert Update(s, i, Blank()).clients == r.clients; }
  }

  lemma ResetKeeps(s: State, i: nat, why: Reason)
    requires Good(s) && Live(s, i) && why != Overflow
    ensures Good(Reset(s, i, why))
    ensures !Live(Reset(s, i, why), i)
    ensures Calm(s, Reset(s, i, why))
  {
    CountersOnReset(s, i, why);
    CalmOnReset(s, i, why);
    HistoryOnReset(s, i, why);
    EmptiedKeeps(s, i, Reset(s, i, why));
  }

  lemma OverflowedKeeps(s: State, i: nat)
    requires Good(s) && Live(s, i)
    ensures Good(Overflowed(s, i))
    ensures !Live(Overflowed(s, i), i)
    ensures Calm(s, Overflowed(s, i))
  {
    var t := s.(stats := s.stats.(queueDisconnects := s.stats.queueDisconnects + 1));
    CountersOnReset(t, i, Overflow);
    CalmOnOverflow(s, i);
    HistoryOnReset(t, i, Overflow);
    EmptiedKeeps(s, i, Overflowed(s, i));
  }

  lemma CalmOnPush(s: State, i: nat, f: Frame)
    requires ClientsOk(s) && Live(s, i) && |f.payload| <= MAX_PAYLOAD
    ensures Calm(s, Update(s, i, Push(s.clients[i], f)))
  {
  }

  /** The frame's payload is allowed, and the frames in the queue leave room for it. */
  predicate Room(maxQueue: nat, q: seq<Queued>, f: Frame) {
    |f.payload| <= 4096 && TotalBytes(q) + 5 + |f.payload| <= maxQueue
  }

  /** There is room for the frame, and the next allocation succeeds. */
  predicate Takes(s: State, i: nat, f: Frame) {
    i < |s.clients| && Room(s.maxQueue, s.clients[i].queue, f) && s.calloc(s.allocations)
  }

  /** A frame is accepted exactly when the limits leave room for it and memory is there, and
      memory is asked for exactly when there is room. */
  lemma EnqueueExactly(s: State, i: nat, f: Frame)
    requires Good(s) && Live(s, i)
    ensures Enqueue(s, i, f).ok <==>
              && |f.payload| <= 4096 && TotalBytes(s.clients[i].queue) + 5 + |f.payload| <= s.maxQueue
              && s.calloc(s.allocations)
    ensures Enqueue(s, i, f).ok <==> Takes(s, i, f)
    ensures Enqueue(s, i, f).state.allocations ==
            s.allocations + if Room(s.maxQueue, s.clients[i].queue, f) then 1 else 0
  {
    assert QueueOk(s.maxQueue, s.clients[i]);
  }

  /** Queued, or the client is dropped for overflow; nobody else is touched. */
  lemma DeliverExactly(s: State, i: nat, f: Frame)
    requires Good(s) && Live(s, i)
    ensures var r := Deliver(s, i, f);
      && r.clients == s.clients[i := r.clients[i]]
      && r.allocations == s.allocations + (if Room(s.maxQueue, s.clients[i].queue, f) then 1 else 0)
      && if Takes(s, i, f)
         then |f.payload| <= MAX_PAYLOAD && r.clients[i] == Push(s.clients[i], f) && r.closed == s.closed
         else r.clients[i] == Blank() && r.closed == s.closed + [Closed(s.clients[i].history, Overflow)]
  {
    EnqueueExactly(s, i, f);
  }

  lemma EnqueueKeeps(s: State, i: nat, f: Frame)
    requires Good(s) && Live(s, i)
    ensures var e := Enqueue(s, i, f);
      && Good(e.state) && Calm(s, e.state) && Live(e.state, i)
      && (e.ok ==> |f.payload| <= MAX_PAYLOAD && e.state.clients == s.clients[i := Push(s.clients[i], f)])
      && (!e.ok ==> e.state.clients == s.clients)
  {
    CalmStays(s);
    if HasRoom(s, s.clients[i], |f.payload|) && s.calloc(s.allocations) {
      PushKeeps(s.channels, s.maxQueue, s.clients[i], f);
      if s.clients[i].registered {
        OwnNameIsFree(s, i);
      }
      UpdateKeeps(s, i, Push(s.clients[i], f));
      CalmOnPush(s, i, f);
    }
  }

  /** Delivering a frame queues it or closes the connection; no other slot changes. */
  lemma DeliverKeeps(s: State, i: nat, f: Frame)
    requires Good(s) && Live(s, i)
    ensures var r := Deliver(s, i, f);
      && Good(r) && Calm(s, r)
      && r.channels == s.channels && r.log == s.log
      && (r.clients == s.clients[i := Blank()]
          || (|f.payload| <= MAX_PAYLOAD && r.clients == s.clients[i := Push(s.clients[i], f)]))
  {
    EnqueueKeeps(s, i, f);
    var e := Enqueue(s, i, f);
    if !e.ok {
      OverflowedKeeps(e.state, i);
      CalmTrans(s, e.state, Overflowed(e.state, i));
    }
  }
}
