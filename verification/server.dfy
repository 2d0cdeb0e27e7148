/** core/src/server.c in place: the client table, the channel table and the counters, and
    the routines that change them. The ghost field state is the value the fields stand
    for; every method is proved to take it where the function of core.dfy of the same
    purpose takes it. */
module ServerProcess {
  import opened Bytes
  import opened Wire
  import opened Core
  import opened ClientSlot
  import opened CoreInvariant
  import opened CoreDelivery
  import opened CoreCommands
  import opened CoreRun
  import opened CoreText
  import opened CoreClean
  import Protocol

  /** The slots of the table are separate, share nothing, consist of the given objects,
      and hold the given connections. */
  ghost predicate SlotsAre(table: array<Client>, parts: set<object>, cs: seq<Conn>)
    reads table, parts
  {
    && table !in parts
    && table.Length == MAX_CLIENTS == |cs|
    && (forall j :: 0 <= j < MAX_CLIENTS ==> table[j] in parts && table[j].Within(parts) && table[j].Holds(cs[j]))
    && (forall j, k :: 0 <= j < k < MAX_CLIENTS ==>
          table[j] != table[k] && table[j].joined != table[k].joined && table[j].inbuf != table[k].inbuf)
  }

  /** The first n entries are separate empty slots made of the given objects. */
  ghost predicate EmptySlots(table: array<Client>, parts: set<object>, n: nat)
    requires n <= table.Length
    reads table, parts
  {
    && table !in parts
    && (forall j :: 0 <= j < n ==> table[j] in parts && table[j].Within(parts) && table[j].Holds(Blank()))
    && (forall j, k :: 0 <= j < k < n ==>
          table[j] != table[k] && table[j].joined != table[k].joined && table[j].inbuf != table[k].inbuf)
  }

  method AddSlot(table: array<Client>, ghost parts: set<object>, i: nat) returns (ghost parts': set<object>)
    requires i < table.Length && EmptySlots(table, parts, i)
    modifies table
    ensures fresh(parts' - parts) && parts <= parts' && EmptySlots(table, parts', i + 1)
  {
    var c := new Client();
    table[i] := c;
    parts' := parts + {c, c.joined, c.inbuf};
    forall j | 0 <= j < i + 1
      ensures table[j] in parts' && table[j].Within(parts') && table[j].Holds(Blank())
    {
      if j < i {
        assert old(table[j].Holds(Blank()));
      }
    }
  }

  /** init_clients. */
  method NewSlots() returns (table: array<Client>, ghost parts: set<object>)
    ensures fresh(table) && fresh(parts)
    ensures SlotsAre(table, parts, seq(MAX_CLIENTS, _ => Blank()))
  {
    var unused := new Client();
    table := new Client[MAX_CLIENTS](_ => unused);
    parts := {};
    for i := 0 to MAX_CLIENTS
      invariant fresh(table) && fresh(parts) && table.Length == MAX_CLIENTS
      invariant EmptySlots(table, parts, i)
    {
      parts := AddSlot(table, parts, i);
    }
  }

  /** free_queue and memset on one slot. */
  method ClearSlot(table: array<Client>, ghost parts: set<object>, ghost cs: seq<Conn>, i: nat)
    requires SlotsAre(table, parts, cs) && i < MAX_CLIENTS
    modifies table[i], table[i].joined, table[i].inbuf
    ensures SlotsAre(table, parts, cs[i := Blank()])
  {
    table[i].Clear(cs[i]);
    forall j | 0 <= j < MAX_CLIENTS
      ensures table[j].Within(parts) && table[j].Holds(cs[i := Blank()][j])
    {
      assert old(table[j].Holds(cs[j]) && table[j].Within(parts));
    }
  }

  method NameSlot(table: array<Client>, ghost parts: set<object>, ghost cs: seq<Conn>, i: nat, name: Bytes)
    requires SlotsAre(table, parts, cs) && i < MAX_CLIENTS
    modifies table[i]
    ensures SlotsAre(table, parts, cs[i := Rename(cs[i], name)])
  {
    table[i].username := name;
    table[i].registered := true;
    forall j | 0 <= j < MAX_CLIENTS
      ensures table[j].Within(parts) && table[j].Holds(cs[i := Rename(cs[i], name)][j])
    {
      assert old(table[j].Holds(cs[j]) && table[j].Within(parts));
    }
  }

  method ChangeActive(table: array<Client>, ghost parts: set<object>, ghost cs: seq<Conn>, i: nat, name: Bytes)
    requires SlotsAre(table, parts, cs) && i < MAX_CLIENTS
    modifies table[i]
    ensures SlotsAre(table, parts, cs[i := cs[i].(active := name)])
  {
    table[i].active := name;
    forall j | 0 <= j < MAX_CLIENTS
      ensures table[j].Within(parts) && table[j].Holds(cs[i := cs[i].(active := name)][j])
    {
      assert old(table[j].Holds(cs[j]) && table[j].Within(parts));
    }
  }

  /** Write a joined flag and the active channel of one slot. */
  method ChangeSession(table: array<Client>, ghost parts: set<object>, ghost cs: seq<Conn>, i: nat,
                       channel: nat, flag: bool, name: Bytes, ghost d: Conn)
    requires SlotsAre(table, parts, cs) && i < MAX_CLIENTS && channel < |cs[i].joined|
    requires d == cs[i].(joined := cs[i].joined[channel := flag], active := name, history := d.history)
    modifies table[i], table[i].joined
    ensures SlotsAre(table, parts, cs[i := d])
  {
    assert table[i].Holds(cs[i]);
    table[i].SetSession(channel, flag, name, cs[i], d);
    forall j | 0 <= j < MAX_CLIENTS
      ensures table[j].Within(parts) && table[j].Holds(cs[i := d][j])
    {
      assert old(table[j].Holds(cs[j]) && table[j].Within(parts));
    }
  }

  method ReceiveInto(table: array<Client>, ghost parts: set<object>, ghost cs: seq<Conn>, i: nat,
    chunk: Bytes, ghost d: Conn)
    requires SlotsAre(table, parts, cs) && i < MAX_CLIENTS && |cs[i].inbuf| + |chunk| <= INBUF_CAP
    requires d == cs[i].(inbuf := cs[i].inbuf + chunk, history := d.history)
    modifies table[i], table[i].inbuf
    ensures SlotsAre(table, parts, cs[i := d])
  {
    assert table[i].Holds(cs[i]);
    table[i].Receive(chunk, cs[i], d);
    forall j | 0 <= j < MAX_CLIENTS
      ensures table[j].Within(parts) && table[j].Holds(cs[i := d][j])
    {
      assert old(table[j].Holds(cs[j]) && table[j].Within(parts));
    }
  }

  /** A payload in the buffer is the payload of the bytes received. */
  lemma PayloadInPlace(buffer: Bytes, len: nat, size: nat)
    requires HEADER_SIZE + size <= len <= |buffer|
    ensures buffer[..len][HEADER_SIZE..HEADER_SIZE + size] == buffer[HEADER_SIZE..HEADER_SIZE + size]
  {
  }

  method ShiftSlot(table: array<Client>, ghost parts: set<object>, ghost cs: seq<Conn>, i: nat, size: nat)
    requires SlotsAre(table, parts, cs) && i < MAX_CLIENTS && size <= |cs[i].inbuf|
    modifies table[i], table[i].inbuf
    ensures SlotsAre(table, parts, cs[i := cs[i].(inbuf := cs[i].inbuf[size..])])
  {
    assert table[i].Holds(cs[i]);
    table[i].Shift(size, cs[i]);
    forall j | 0 <= j < MAX_CLIENTS
      ensures table[j].Within(parts) && table[j].Holds(cs[i := cs[i].(inbuf := cs[i].inbuf[size..])][j])
    {
      assert old(table[j].Holds(cs[j]) && table[j].Within(parts));
    }
  }

  method TakeFromHead(table: array<Client>, ghost parts: set<object>, ghost cs: seq<Conn>, i: nat, n: nat)
    requires SlotsAre(table, parts, cs) && i < MAX_CLIENTS && n > 0
    requires cs[i].queue != [] && cs[i].queue[0].sent + n <= |cs[i].queue[0].data|
    modifies parts
    ensures SlotsAre(table, parts, cs[i := Progress(cs[i], n)])
  {
    assert table[i].Holds(cs[i]);
    table[i].Take(n, cs[i]);
    forall j | 0 <= j < MAX_CLIENTS
      ensures table[j].Within(parts) && table[j].Holds(cs[i := Progress(cs[i], n)][j])
    {
      assert old(table[j].Holds(cs[j]) && table[j].Within(parts));
    }
  }

  /** accept_clients fills a free slot: memset and the new descriptor. */
  method OccupySlot(table: array<Client>, ghost parts: set<object>, ghost cs: seq<Conn>, i: nat, fd: nat, ghost d: Conn)
    requires SlotsAre(table, parts, cs) && i < MAX_CLIENTS
    requires d == Blank().(fd := fd, history := d.history)
    modifies table[i], table[i].joined, table[i].inbuf
    ensures SlotsAre(table, parts, cs[i := d])
  {
    table[i].Clear(cs[i]);
    table[i].fd := fd;
    forall j | 0 <= j < MAX_CLIENTS
      ensures table[j].Within(parts) && table[j].Holds(cs[i := d][j])
    {
      assert old(table[j].Holds(cs[j]) && table[j].Within(parts));
    }
  }

  /** Header and payload are written into the new frame's buffer. */
  method NewFrame(owner: Client, f: Frame) returns (frame: OutFrame)
    requires |f.payload| <= MAX_PAYLOAD
    ensures fresh(frame) && frame.owner == owner
    ensures frame.data == EncodeFrame(f) && frame.sent == 0 && frame.next == null
  {
    var data := new byte[HEADER_SIZE + MAX_PAYLOAD](_ => 0);
    var used := Protocol.WriteHeader(data, f.kind, |f.payload|);
    forall k | 0 <= k < |f.payload| {
      data[HEADER_SIZE + k] := f.payload[k];
    }
    assert data[..HEADER_SIZE + |f.payload|] == EncodeFrame(f);
    frame := new OutFrame(owner, data[..HEADER_SIZE + |f.payload|]);
  }

  /** The tail of enqueue_payload, once there is memory for the frame. */
  method LinkFrame(table: array<Client>, ghost parts: set<object>, ghost cs: seq<Conn>, i: nat, f: Frame)
    returns (ghost parts': set<object>)
    requires SlotsAre(table, parts, cs) && i < MAX_CLIENTS && |f.payload| <= MAX_PAYLOAD
    modifies parts
    ensures fresh(parts' - parts) && parts <= parts'
    ensures SlotsAre(table, parts', cs[i := Push(cs[i], f)])
  {
    var frame := NewFrame(table[i], f);
    table[i].Link(frame, f, cs[i]);
    parts' := parts + {frame};
    forall j | 0 <= j < MAX_CLIENTS
      ensures table[j].Within(parts') && table[j].Holds(cs[i := Push(cs[i], f)][j])
    {
      assert old(table[j].Holds(cs[j]) && table[j].Within(parts));
    }
  }

  /** The cw_write_string calls of enqueue_strings and broadcast_chat. */
  method PackPayload(values: seq<Bytes>) returns (ok: bool, payload: Bytes)
    ensures Written(values, MAX_PAYLOAD) == if ok then Some(payload) else None
  {
    var buf := new byte[MAX_PAYLOAD](_ => 0);
    var offset;
    ok, offset := Protocol.WriteStrings(buf, values);
    payload := buf[..offset];
  }

  class Server {
    const clients: array<Client>
    const channels: array<Bytes>
    var channelCount: nat
    const maxQueueBytes: nat
    const calloc: nat -> bool
    var allocations: nat
    var currentConnections: nat
    var totalConnections: nat
    var channelMessages: nat
    var directMessages: nat
    var malformedFrames: nat
    var queueDisconnects: nat
    ghost var state: State
    ghost var parts: set<object>

    /** The scalar fields and the channel table are those of the state. */
    ghost predicate Globals()
      reads this, channels
    {
      && channels.Length == MAX_CHANNELS && channelCount <= MAX_CHANNELS
      && channels[..channelCount] == state.channels
      && maxQueueBytes == state.maxQueue && calloc == state.calloc && allocations == state.allocations
      && currentConnections == state.stats.current && totalConnections == state.stats.total
      && channelMessages == state.stats.channelMessages && directMessages == state.stats.directMessages
      && malformedFrames == state.stats.malformed && queueDisconnects == state.stats.queueDisconnects
    }

    ghost predicate Valid()
      reads this, channels, clients, parts
    {
      && this !in parts && channels !in parts
      && Globals()
      && SlotsAre(clients, parts, state.clients)
    }

    constructor (maxQueueBytes: nat, calloc: nat -> bool)
      ensures Valid() && fresh(parts) && fresh(channels) && fresh(clients)
      ensures state == Initial(maxQueueBytes, calloc)
    {
      this.maxQueueBytes, this.calloc := maxQueueBytes, calloc;
      channels := new Bytes[MAX_CHANNELS](_ => []);
      channelCount, allocations := 0, 0;
      currentConnections, totalConnections := 0, 0;
      channelMessages, directMessages, malformedFrames, queueDisconnects := 0, 0, 0, 0;
      state := Initial(maxQueueBytes, calloc);
      var table, slots := NewSlots();
      clients, parts := table, slots;
    }

    // ----------------------------------------------------------------- closing

    /** The guarded decrement of current_connections. */
    method CountClosed(open: bool)
      modifies `currentConnections
      ensures currentConnections ==
        if open && old(currentConnections) > 0 then old(currentConnections) - 1 else old(currentConnections)
    {
      if open {
        if currentConnections > 0 {
          currentConnections := currentConnections - 1;
        }
      }
    }

    /** disconnect_client: reset_client after a log line. */
    method ResetClient(i: nat, ghost why: Reason)
      requires Valid() && i < MAX_CLIENTS
      modifies this, channels, parts
      ensures Valid() && fresh(parts - old(parts))
      ensures state == Reset(old(state), i, why)
    {
      assert clients[i].Holds(state.clients[i]);
      CountClosed(clients[i].fd >= 0);
      ClearSlot(clients, parts, state.clients, i);
      state := Reset(state, i, why);
    }

    /** enqueue_payload. */
    method EnqueuePayload(i: nat, f: Frame) returns (ok: bool)
      requires Valid() && i < MAX_CLIENTS
      modifies this, channels, parts
      ensures Valid() && fresh(parts - old(parts))
      ensures Outcome(state, ok) == Enqueue(old(state), i, f)
    {
      if |f.payload| > MAX_PAYLOAD {
        return false;
      }
      if clients[i].queuedBytes + HEADER_SIZE + |f.payload| > maxQueueBytes {
        return false;
      }
      ok := Allocate();
      if ok {
        Attach(i, f);
      }
    }

    /** calloc. */
    method Allocate() returns (ok: bool)
      requires Valid()
      modifies this
      ensures Valid() && parts == old(parts)
      ensures state == old(state).(allocations := old(state).allocations + 1)
      ensures ok == old(state).calloc(old(state).allocations)
    {
      ok := calloc(allocations);
      allocations := allocations + 1;
      state := state.(allocations := allocations);
    }

    method Attach(i: nat, f: Frame)
      requires Valid() && i < MAX_CLIENTS && |f.payload| <= MAX_PAYLOAD
      modifies this, parts
      ensures Valid() && fresh(parts - old(parts))
      ensures state == Update(old(state), i, Push(old(state).clients[i], f))
    {
      ghost var next := Update(state, i, Push(state.clients[i], f));
      parts := LinkFrame(clients, parts, state.clients, i, f);
      state := next;
    }

    /** stats.queue_disconnects++ and disconnect_client. */
    method DropOverflowing(i: nat)
      requires Valid() && i < MAX_CLIENTS
      modifies this, channels, parts
      ensures Valid() && fresh(parts - old(parts))
      ensures state == Overflowed(old(state), i)
    {
      queueDisconnects := queueDisconnects + 1;
      state := state.(stats := state.stats.(queueDisconnects := state.stats.queueDisconnects + 1));
      ResetClient(i, Overflow);
    }

    /** safe_enqueue_text. */
    method SafeEnqueue(i: nat, f: Frame)
      requires Valid() && i < MAX_CLIENTS
      modifies this, channels, parts
      ensures Valid() && fresh(parts - old(parts))
      ensures state == Deliver(old(state), i, f)
    {
      var ok := EnqueuePayload(i, f);
      if !ok {
        DropOverflowing(i);
      }
    }

    method SafeSay(i: nat, kind: byte, text: string)
      requires Valid() && i < MAX_CLIENTS
      modifies this, channels, parts
      ensures Valid() && fresh(parts - old(parts))
      ensures state == Say(old(state), i, kind, text)
    {
      SafeEnqueue(i, Frame(kind, Ascii(text)));
    }

    // ----------------------------------------------------------------- look-ups

    /** username_in_use. */
    method UsernameInUse(name: Bytes, except: nat) returns (used: bool)
      requires Valid()
      ensures used <==> InUse(state, name, except)
    {
      for j := 0 to MAX_CLIENTS
        invariant forall k :: 0 <= k < j ==>
          !(k != except && state.clients[k].fd >= 0 && state.clients[k].registered && state.clients[k].username == name)
      {
        assert clients[j].Holds(state.clients[j]);
        if j != except && clients[j].fd >= 0 && clients[j].registered && clients[j].username == name {
          return true;
        }
      }
      return false;
    }

    /** find_channel. */
    method LookUpChannel(name: Bytes) returns (r: int)
      requires Valid()
      ensures r == FindChannel(state.channels, name)
    {
      for k := 0 to channelCount
        invariant forall j :: 0 <= j < k ==> state.channels[j] != name
      {
        assert channels[k] == state.channels[k];
        if channels[k] == name {
          return k;
        }
      }
      return -1;
    }

    method ActiveChannel(i: nat) returns (r: int)
      requires Valid() && i < MAX_CLIENTS
      ensures r == FindChannel(state.channels, state.clients[i].active)
    {
      assert clients[i].Holds(state.clients[i]);
      r := LookUpChannel(clients[i].active);
    }

    /** ensure_channel. */
    method EnsureChannel(name: Bytes) returns (r: int)
      requires Valid()
      modifies this, channels, parts
      ensures Valid() && parts == old(parts)
      ensures var found := FindChannel(old(state).channels, name);
        if found >= 0 then r == found && state == old(state)
        else if |old(state).channels| >= MAX_CHANNELS then r == -1 && state == old(state)
        else r == |old(state).channels| && state == old(state).(channels := old(state).channels + [name])
    {
      r := LookUpChannel(name);
      if r >= 0 {
        return r;
      }
      if channelCount >= MAX_CHANNELS {
        return -1;
      }
      AddChannel(name);
      return channelCount - 1;
    }

    method AddChannel(name: Bytes)
      requires Valid() && channelCount < MAX_CHANNELS
      modifies `state, `channelCount, channels
      ensures Valid() && channelCount == old(channelCount) + 1
      ensures state == old(state).(channels := old(state).channels + [name])
    {
      ghost var next := state.(channels := state.channels + [name]);
      channels[channelCount] := name;
      channelCount := channelCount + 1;
      assert channels[..channelCount] == next.channels;
      state := next;
    }

    // ------------------------------------------------------------------ fan-out

    /** broadcast_system_to_active_channel. */
    method BroadcastSystem(i: nat, text: Bytes)
      requires Valid() && i < MAX_CLIENTS
      modifies this, channels, parts
      ensures Valid() && fresh(parts - old(parts))
      ensures state == Announce(old(state), i, text)
    {
      var channel := ActiveChannel(i);
      if channel < 0 {
        return;
      }
      FanOut(channel, i, Frame(SYSTEM, text));
    }

    /** The loop of both broadcasts over all slots. */
    method FanOut(channel: nat, except: int, f: Frame)
      requires Valid() && channel < MAX_CHANNELS
      modifies this, channels, parts
      ensures Valid() && fresh(parts - old(parts))
      ensures state == Fanout(old(state), MAX_CLIENTS, channel, except, f)
    {
      for j := 0 to MAX_CLIENTS
        invariant Valid() && fresh(parts - old(parts))
        invariant state == Fanout(old(state), j, channel, except, f)
      {
        FanOutTo(j, channel, except, f);
      }
    }

    /** One round of that loop. */
    method FanOutTo(j: nat, channel: nat, except: int, f: Frame)
      requires Valid() && j < MAX_CLIENTS && channel < MAX_CHANNELS
      modifies this, channels, parts
      ensures Valid() && fresh(parts - old(parts))
      ensures state == Round(old(state), j, channel, except, f)
    {
      assert clients[j].Holds(state.clients[j]);
      if j != except && clients[j].fd >= 0 && clients[j].registered && clients[j].joined[channel] {
        SafeEnqueue(j, f);
      }
    }

    /** broadcast_chat. */
    method BroadcastChat(i: nat, text: Bytes)
      requires Valid() && i < MAX_CLIENTS
      modifies this, channels, parts
      ensures Valid() && fresh(parts - old(parts))
      ensures state == Broadcast(old(state), i, text)
    {
      ghost var c := state.clients[i];
      assert clients[i].Holds(c);
      var channel := ActiveChannel(i);
      if channel < 0 {
        SafeSay(i, ERROR, "join a channel before sending");
      } else {
        var ok, payload := PackPayload([clients[i].active, clients[i].username, text]);
        if !ok {
          SafeSay(i, ERROR, "message payload too large");
        } else {
          PostChat(channel, payload, Chat(c.active, c.username, text));
        }
      }
    }

    method PostChat(channel: nat, payload: Bytes, ghost m: Chat)
      requires Valid() && channel < MAX_CHANNELS
      modifies this, channels, parts
      ensures Valid() && fresh(parts - old(parts))
      ensures state == Logged(Fanout(old(state), MAX_CLIENTS, channel, -1, Frame(CHAT, payload)), m)
    {
      FanOut(channel, -1, Frame(CHAT, payload));
      CountMessage(m);
    }

    /** stats.channel_messages++; the broadcast counts as done. */
    method CountMessage(ghost m: Chat)
      requires Valid()
      modifies this
      ensures Valid() && parts == old(parts)
      ensures state == Logged(old(state), m)
    {
      channelMessages := channelMessages + 1;
      state := Logged(state, m);
    }

    // ------------------------------------------------------------------ answers

    /** send_who. */
    method WhoRequest(i: nat)
      requires Valid() && i < MAX_CLIENTS
      modifies this, channels, parts
      ensures Valid() && fresh(parts - old(parts))
      ensures state == SendWho(old(state), i)
    {
      var channel := ActiveChannel(i);
      if channel < 0 {
        SafeSay(i, ERROR, "join a channel before listing participants");
      } else {
        AnswerWho(i, channel);
      }
    }

    method AnswerWho(i: nat, channel: nat)
      requires Valid() && i < MAX_CLIENTS && channel < MAX_CHANNELS
      modifies this, channels, parts
      ensures Valid() && fresh(parts - old(parts))
      ensures state == match Lines(Members(old(state).clients, channel), MAX_PAYLOAD)
        case None => Say(old(state), i, ERROR, "WHO response too large")
        case Some(text) => Deliver(old(state), i, Frame(WHO_RESP, text))
    {
      var ok, text := ListMembers(channel);
      if !ok {
        SafeSay(i, ERROR, "WHO response too large");
      } else {
        SafeEnqueue(i, Frame(WHO_RESP, text));
      }
    }

    /** The snprintf loop of send_who. */
    method ListMembers(channel: nat) returns (ok: bool, text: Bytes)
      requires Valid() && channel < MAX_CHANNELS
      ensures Lines(Members(state.clients, channel), MAX_PAYLOAD) == if ok then Some(text) else None
    {
      text := [];
      for j := 0 to MAX_CLIENTS
        invariant Lines(Members(state.clients[..j], channel), MAX_PAYLOAD) == Some(text)
      {
        assert clients[j].Holds(state.clients[j]);
        MemberLine(state.clients, j, channel, MAX_PAYLOAD);
        if clients[j].fd >= 0 && clients[j].registered && clients[j].joined[channel] {
          var piece := (if text == [] then [] else Ascii("\n")) + clients[j].username;
          if |piece| >= MAX_PAYLOAD - |text| {
            return false, text;
          }
          text := text + piece;
        }
      }
      assert state.clients[..MAX_CLIENTS] == state.clients;
      ok := true;
    }

    /** send_list. */
    method ListRequest(i: nat)
      requires Valid() && i < MAX_CLIENTS
      modifies this, channels, parts
      ensures Valid() && fresh(parts - old(parts))
      ensures state == SendList(old(state), i)
    {
      var ok, text := ListChannels();
      if !ok {
        SafeSay(i, ERROR, "LIST response too large");
      } else {
        SafeEnqueue(i, Frame(LIST_RESP, text));
      }
    }

    /** The snprintf loop of send_list. */
    method ListChannels() returns (ok: bool, text: Bytes)
      requires Valid()
      ensures Lines(state.channels, MAX_PAYLOAD) == if ok then Some(text) else None
    {
      text := [];
      for k := 0 to channelCount
        invariant Lines(state.channels[..k], MAX_PAYLOAD) == Some(text)
      {
        assert channels[k] == state.channels[k];
        LinesNext(state.channels, k, MAX_PAYLOAD, text);
        var piece := (if text == [] then [] else Ascii("\n")) + channels[k];
        if |piece| >= MAX_PAYLOAD - |text| {
          LinesStayTooLong(state.channels, k + 1, MAX_PAYLOAD);
          return false, text;
        }
        text := text + piece;
      }
      assert state.channels[..channelCount] == state.channels;
      ok := true;
    }

    /** send_stats. */
    method StatsRequest(i: nat)
      requires Valid() && i < MAX_CLIENTS
      modifies this, channels, parts
      ensures Valid() && fresh(parts - old(parts))
      ensures state == SendStats(old(state), i)
    {
      var registered := 0;
      for j := 0 to MAX_CLIENTS
        invariant registered == CountRegistered(state.clients[..j])
      {
        assert clients[j].Holds(state.clients[j]);
        assert state.clients[..j + 1][..j] == state.clients[..j];
        if clients[j].fd >= 0 && clients[j].registered {
          registered := registered + 1;
        }
      }
      assert state.clients[..MAX_CLIENTS] == state.clients;
      var counters := Stats(currentConnections, totalConnections, channelMessages, directMessages,
                            malformedFrames, queueDisconnects);
      var text := StatsText(counters, registered, channelCount, maxQueueBytes);
      if |text| >= MAX_PAYLOAD {
        SafeSay(i, ERROR, "stats response too large");
      } else {
        SafeEnqueue(i, Frame(STATS_RESP, text));
      }
    }

    // ----------------------------------------------------------------- commands

    /** A name at the start of the input buffer's first payload. */
    method PayloadName(i: nat, len: nat, cap: nat) returns (ok: bool, name: Bytes)
      requires Valid() && i < MAX_CLIENTS && HEADER_SIZE + len <= INBUF_CAP
      ensures ReadName(clients[i].inbuf[HEADER_SIZE..HEADER_SIZE + len], cap) == if ok then Some(name) else None
    {
      assert clients[i].Holds(state.clients[i]);
      var raw;
      ok, raw := Protocol.ReadOneString(clients[i].inbuf, HEADER_SIZE, len, cap + 1);
      name := CStr(raw);
      if ok {
        ok := Protocol.ValidName(name, 1, cap);
      }
    }

    method SetName(i: nat, name: Bytes)
      requires Valid() && i < MAX_CLIENTS
      modifies clients[i], `state
      ensures Valid()
      ensures state == Update(old(state), i, Core.Rename(old(state).clients[i], name))
    {
      NameSlot(clients, parts, state.clients, i, name);
      state := Update(state, i, Core.Rename(state.clients[i], name));
    }

    /** handle_hello. */
    method HelloRequest(i: nat, len: nat, ghost payload: Bytes)
      requires Valid() && i < MAX_CLIENTS && HEADER_SIZE + len <= INBUF_CAP
      requires payload == clients[i].inbuf[HEADER_SIZE..HEADER_SIZE + len]
      modifies this, channels, parts
      ensures Valid() && fresh(parts - old(parts))
      ensures state == HandleHello(old(state), i, payload)
    {
      var ok, name := PayloadName(i, len, NAME_CAP);
      if !ok {
        SafeSay(i, ERROR, "invalid username");
      } else {
        var used := UsernameInUse(name, i);
        if used {
          SafeSay(i, ERROR, "username already in use");
        } else {
          Register(i, name);
        }
      }
    }

    method Register(i: nat, name: Bytes)
      requires Valid() && i < MAX_CLIENTS
      modifies this, channels, parts
      ensures Valid() && fresh(parts - old(parts))
      ensures state == Core.Say(Update(old(state), i, Core.Rename(old(state).clients[i], name)), i, OK, "registered")
    {
      SetName(i, name);
      SafeSay(i, OK, "registered");
    }

    /** Raise the joined flag of a channel and make it the active one. */
    method SetJoined(i: nat, channel: nat, name: Bytes)
      requires Valid() && i < MAX_CLIENTS && channel < MAX_CHANNELS
      modifies clients[i], clients[i].joined, `state
      ensures Valid()
      ensures state == Update(old(state), i, Enter(old(state), old(state).clients[i], channel).(active := name))
    {
      ghost var d := Enter(state, state.clients[i], channel).(active := name);
      ChangeSession(clients, parts, state.clients, i, channel, true, name, d);
      state := Update(state, i, d);
    }

    method SetActive(i: nat, name: Bytes)
      requires Valid() && i < MAX_CLIENTS
      modifies clients[i], `state
      ensures Valid()
      ensures state == Update(old(state), i, old(state).clients[i].(active := name))
    {
      ChangeActive(clients, parts, state.clients, i, name);
      state := Update(state, i, state.clients[i].(active := name));
    }

    /** Lower the joined flag of a channel, and forget it as the active one. */
    method SetLeft(i: nat, channel: nat, name: Bytes)
      requires Valid() && i < MAX_CLIENTS && channel < MAX_CHANNELS
      modifies clients[i], clients[i].joined, `state
      ensures Valid()
      ensures var c := old(state).clients[i];
        |c.joined| == MAX_CHANNELS
        && state == Update(old(state), i, c.(joined := c.joined[channel := false],
                                             active := if c.active == name then [] else c.active))
    {
      ghost var c := state.clients[i];
      assert clients[i].Holds(c);
      var active := if clients[i].active == name then [] else clients[i].active;
      ghost var d := c.(joined := c.joined[channel := false], active := active);
      ChangeSession(clients, parts, state.clients, i, channel, false, active, d);
      state := Update(state, i, d);
    }

    method IsRegistered(i: nat) returns (r: bool)
      requires Valid() && i < MAX_CLIENTS
      ensures r == state.clients[i].registered
    {
      assert clients[i].Holds(state.clients[i]);
      r := clients[i].registered;
    }

    method HasJoined(i: nat, channel: int) returns (r: bool)
      requires Valid() && i < MAX_CLIENTS && channel < MAX_CHANNELS
      ensures var joined := state.clients[i].joined; r <==> 0 <= channel < |joined| && joined[channel]
    {
      assert clients[i].Holds(state.clients[i]);
      r := channel >= 0 && clients[i].joined[channel];
    }

    /** join_channel; it is only ever called with make_active set. */
    method JoinRequest(i: nat, len: nat, ghost payload: Bytes)
      requires Valid() && i < MAX_CLIENTS && HEADER_SIZE + len <= INBUF_CAP
      requires payload == clients[i].inbuf[HEADER_SIZE..HEADER_SIZE + len]
      modifies this, channels, parts
      ensures Valid() && fresh(parts - old(parts))
      ensures state == JoinChannel(old(state), i, payload)
    {
      var registered := IsRegistered(i);
      if !registered {
        SafeSay(i, ERROR, "send HELLO first");
      } else {
        var ok, name := PayloadName(i, len, CHANNEL_CAP);
        if !ok {
          SafeSay(i, ERROR, "invalid channel");
        } else {
          EnterChannel(i, name);
        }
      }
    }

    method EnterChannel(i: nat, name: Bytes)
      requires Valid() && i < MAX_CLIENTS
      modifies this, channels, parts
      ensures Valid() && fresh(parts - old(parts))
      ensures state == EnterNamed(old(state), i, name)
    {
      var channel := EnsureChannel(name);
      if channel < 0 {
        SafeSay(i, ERROR, "too many channels");
      } else {
        EnterKnown(i, channel, name);
      }
    }

    method EnterKnown(i: nat, channel: nat, name: Bytes)
      requires Valid() && i < MAX_CLIENTS && channel < MAX_CHANNELS
      modifies this, channels, parts
      ensures Valid() && fresh(parts - old(parts))
      ensures state == var c := Enter(old(state), old(state).clients[i], channel).(active := name);
                       Deliver(Update(old(state), i, c), i, Frame(OK, Ascii("joined ") + name))
    {
      SetJoined(i, channel, name);
      SafeEnqueue(i, Frame(OK, Ascii("joined ") + name));
    }

    /** switch_channel. */
    method SwitchRequest(i: nat, len: nat, ghost payload: Bytes)
      requires Valid() && i < MAX_CLIENTS && HEADER_SIZE + len <= INBUF_CAP
      requires payload == clients[i].inbuf[HEADER_SIZE..HEADER_SIZE + len]
      modifies this, channels, parts
      ensures Valid() && fresh(parts - old(parts))
      ensures state == SwitchChannel(old(state), i, payload)
    {
      var registered := IsRegistered(i);
      if !registered {
        SafeSay(i, ERROR, "send HELLO first");
      } else {
        var ok, name := PayloadName(i, len, CHANNEL_CAP);
        if !ok {
          SafeSay(i, ERROR, "invalid channel");
        } else {
          ActivateChannel(i, name);
        }
      }
    }

    method ActivateChannel(i: nat, name: Bytes)
      requires Valid() && i < MAX_CLIENTS
      modifies this, channels, parts
      ensures Valid() && fresh(parts - old(parts))
      ensures state == SwitchNamed(old(state), i, name)
    {
      var channel := LookUpChannel(name);
      var joined := HasJoined(i, channel);
      if !joined {
        SafeSay(i, ERROR, "join channel before switching");
      } else {
        ActivateJoined(i, name);
      }
    }

    method ActivateJoined(i: nat, name: Bytes)
      requires Valid() && i < MAX_CLIENTS
      modifies this, channels, parts
      ensures Valid() && fresh(parts - old(parts))
      ensures state == var c := old(state).clients[i].(active := name);
                       Deliver(Update(old(state), i, c), i, Frame(OK, Ascii("switched ") + name))
    {
      SetActive(i, name);
      SafeEnqueue(i, Frame(OK, Ascii("switched ") + name));
    }

    /** leave_channel. */
    method LeaveRequest(i: nat, len: nat, ghost payload: Bytes)
      requires Valid() && i < MAX_CLIENTS && HEADER_SIZE + len <= INBUF_CAP
      requires payload == clients[i].inbuf[HEADER_SIZE..HEADER_SIZE + len]
      modifies this, channels, parts
      ensures Valid() && fresh(parts - old(parts))
      ensures state == LeaveChannel(old(state), i, payload)
    {
      var ok, name := PayloadName(i, len, CHANNEL_CAP);
      if !ok {
        SafeSay(i, ERROR, "invalid channel");
      } else {
        ExitChannel(i, name);
      }
    }

    method ExitChannel(i: nat, name: Bytes)
      requires Valid() && i < MAX_CLIENTS
      modifies this, channels, parts
      ensures Valid() && fresh(parts - old(parts))
      ensures state == LeaveNamed(old(state), i, name)
    {
      var channel := LookUpChannel(name);
      var joined := HasJoined(i, channel);
      if !joined {
        SafeSay(i, ERROR, "not in channel");
      } else {
        LeaveJoined(i, channel, name);
      }
    }

    method LeaveJoined(i: nat, channel: nat, name: Bytes)
      requires Valid() && i < MAX_CLIENTS && channel < MAX_CHANNELS
      modifies this, channels, parts
      ensures Valid() && fresh(parts - old(parts))
      ensures var c := old(state).clients[i];
        && |c.joined| == MAX_CHANNELS
        && var d := c.(joined := c.joined[channel := false], active := if c.active == name then [] else c.active);
        state == Say(Update(old(state), i, d), i, OK, "left channel")
    {
      SetLeft(i, channel, name);
      SafeSay(i, OK, "left channel");
    }

    /** The search for the target in handle_dm. */
    method LookUpUser(name: Bytes) returns (r: int)
      requires Valid()
      ensures r == FindUser(state.clients, name)
    {
      for j := 0 to MAX_CLIENTS
        invariant forall k :: 0 <= k < j ==> !(Registered(state.clients[k]) && state.clients[k].username == name)
      {
        assert clients[j].Holds(state.clients[j]);
        if clients[j].fd >= 0 && clients[j].registered && clients[j].username == name {
          return j;
        }
      }
      return -1;
    }

    /** The two strings of a DM payload. */
    method PayloadDirect(i: nat, len: nat) returns (ok: bool, dm: Direct)
      requires Valid() && i < MAX_CLIENTS && HEADER_SIZE + len <= INBUF_CAP
      ensures ReadDirect(clients[i].inbuf[HEADER_SIZE..HEADER_SIZE + len]) == if ok then Some(dm) else None
    {
      assert clients[i].Holds(state.clients[i]);
      var buf := clients[i].inbuf;
      ghost var payload := buf[HEADER_SIZE..HEADER_SIZE + len];
      ReadExactlyTwo(payload, NAME_CAP + 1, TEXT_CAP + 1);
      dm := Direct([], []);
      var next, target, text;
      ok, next, target := Protocol.ReadString(buf, HEADER_SIZE, len, 0, NAME_CAP + 1);
      if ok {
        ok, next, text := Protocol.ReadString(buf, HEADER_SIZE, len, next, TEXT_CAP + 1);
        if ok {
          ok := next == len && CStr(text) != [];
          dm := Direct(CStr(target), CStr(text));
        }
      }
    }

    /** handle_dm. */
    method DmRequest(i: nat, len: nat, ghost payload: Bytes)
      requires Valid() && i < MAX_CLIENTS && HEADER_SIZE + len <= INBUF_CAP
      requires payload == clients[i].inbuf[HEADER_SIZE..HEADER_SIZE + len]
      modifies this, channels, parts
      ensures Valid() && fresh(parts - old(parts))
      ensures state == HandleDm(old(state), i, payload)
    {
      var registered := IsRegistered(i);
      if !registered {
        SafeSay(i, ERROR, "send HELLO first");
      } else {
        var ok, dm := PayloadDirect(i, len);
        if !ok {
          SafeSay(i, ERROR, "invalid direct message");
        } else {
          SendDirect(i, dm);
        }
      }
    }

    method SendDirect(i: nat, dm: Direct)
      requires Valid() && i < MAX_CLIENTS
      modifies this, channels, parts
      ensures Valid() && fresh(parts - old(parts))
      ensures state == DirectTo(old(state), i, dm)
    {
      var target := LookUpUser(dm.target);
      if target < 0 {
        SafeSay(i, ERROR, "user not found");
      } else {
        PackAndRelay(i, target, dm.text);
      }
    }

    method PackAndRelay(i: nat, target: nat, text: Bytes)
      requires Valid() && i < MAX_CLIENTS && target < MAX_CLIENTS
      modifies this, channels, parts
      ensures Valid() && fresh(parts - old(parts))
      ensures state == match Written([old(state).clients[i].username, text], MAX_PAYLOAD)
        case None => Overflowed(old(state), target)
        case Some(p) => Relay(old(state), i, target, Frame(DM_RECV, p))
    {
      assert clients[i].Holds(state.clients[i]);
      var ok, payload := PackPayload([clients[i].username, text]);
      if !ok {
        DropOverflowing(target);
      } else {
        RelayTo(i, target, Frame(DM_RECV, payload));
      }
    }

    method RelayTo(i: nat, target: nat, f: Frame)
      requires Valid() && i < MAX_CLIENTS && target < MAX_CLIENTS
      modifies this, channels, parts
      ensures Valid() && fresh(parts - old(parts))
      ensures state == Relay(old(state), i, target, f)
    {
      var ok := EnqueuePayload(target, f);
      if !ok {
        DropOverflowing(target);
      } else {
        ConfirmDirect(i);
      }
    }

    method ConfirmDirect(i: nat)
      requires Valid() && i < MAX_CLIENTS
      modifies this, channels, parts
      ensures Valid() && fresh(parts - old(parts))
      ensures state == Say(CountDirect(old(state)), i, OK, "direct message sent")
    {
      CountDirectMessage();
      SafeSay(i, OK, "direct message sent");
    }

    method CountDirectMessage()
      requires Valid()
      modifies this
      ensures Valid() && parts == old(parts)
      ensures state == CountDirect(old(state))
    {
      directMessages := directMessages + 1;
      state := CountDirect(state);
    }

    /** handle_nick. */
    method NickRequest(i: nat, len: nat, ghost payload: Bytes)
      requires Valid() && i < MAX_CLIENTS && HEADER_SIZE + len <= INBUF_CAP
      requires payload == clients[i].inbuf[HEADER_SIZE..HEADER_SIZE + len]
      modifies this, channels, parts
      ensures Valid() && fresh(parts - old(parts))
      ensures state == HandleNick(old(state), i, payload)
    {
      var ok, name := PayloadName(i, len, NAME_CAP);
      if !ok {
        SafeSay(i, ERROR, "invalid username");
      } else {
        var used := UsernameInUse(name, i);
        if used {
          SafeSay(i, ERROR, "username already in use");
        } else {
          ChangeName(i, name);
        }
      }
    }

    method ChangeName(i: nat, name: Bytes)
      requires Valid() && i < MAX_CLIENTS
      modifies this, channels, parts
      ensures Valid() && fresh(parts - old(parts))
      ensures state == NickNamed(old(state), i, name)
    {
      assert clients[i].Holds(state.clients[i]);
      var oldName := clients[i].username;
      Rename(i, name);
      BroadcastSystem(i, Notice(oldName, name));
    }

    method Rename(i: nat, name: Bytes)
      requires Valid() && i < MAX_CLIENTS
      modifies this, channels, parts
      ensures Valid() && fresh(parts - old(parts))
      ensures var t := Update(old(state), i, Core.Rename(old(state).clients[i], name));
        state == Core.Say(t, i, OK, "username changed")
    {
      SetName(i, name);
      SafeSay(i, OK, "username changed");
    }

    /** The SAY case of handle_frame. */
    method SayRequest(i: nat, len: nat, ghost payload: Bytes)
      requires Valid() && i < MAX_CLIENTS && HEADER_SIZE + len <= INBUF_CAP
      requires payload == clients[i].inbuf[HEADER_SIZE..HEADER_SIZE + len]
      modifies this, channels, parts
      ensures Valid() && fresh(parts - old(parts))
      ensures state == HandleSay(old(state), i, payload)
    {
      var registered := IsRegistered(i);
      assert clients[i].Holds(state.clients[i]);
      if !registered {
        SafeSay(i, ERROR, "send HELLO first");
      } else if clients[i].active == [] {
        SafeSay(i, ERROR, "join a channel before sending");
      } else {
        SayText(i, len, payload);
      }
    }

    method SayText(i: nat, len: nat, ghost payload: Bytes)
      requires Valid() && i < MAX_CLIENTS && HEADER_SIZE + len <= INBUF_CAP
      requires payload == clients[i].inbuf[HEADER_SIZE..HEADER_SIZE + len]
      modifies this, channels, parts
      ensures Valid() && fresh(parts - old(parts))
      ensures state == match ReadText(payload)
                       case None => Say(old(state), i, ERROR, "invalid message")
                       case Some(text) => Broadcast(old(state), i, text)
    {
      assert clients[i].Holds(state.clients[i]);
      var ok, text := Protocol.ReadOneString(clients[i].inbuf, HEADER_SIZE, len, TEXT_CAP + 1);
      if !ok || CStr(text) == [] {
        SafeSay(i, ERROR, "invalid message");
      } else {
        BroadcastChat(i, CStr(text));
      }
    }

    /** handle_frame, for the frame at the front of the client's own buffer. */
    method Handle(i: nat, kind: byte, len: nat, ghost payload: Bytes)
      requires Valid() && i < MAX_CLIENTS && HEADER_SIZE + len <= INBUF_CAP
      requires payload == clients[i].inbuf[HEADER_SIZE..HEADER_SIZE + len]
      modifies this, channels, parts
      ensures Valid() && fresh(parts - old(parts))
      ensures state == HandleFrame(old(state), i, Frame(kind, payload))
    {
      if kind == HELLO { HelloRequest(i, len, payload); }
      else if kind == JOIN { JoinRequest(i, len, payload); }
      else if kind == SWITCH { SwitchRequest(i, len, payload); }
      else if kind == LEAVE { LeaveRequest(i, len, payload); }
      else if kind == SAY { SayRequest(i, len, payload); }
      else if kind == DM { DmRequest(i, len, payload); }
      else if kind == WHO { WhoRequest(i); }
      else if kind == LIST { ListRequest(i); }
      else if kind == NICK { NickRequest(i, len, payload); }
      else if kind == QUIT { ResetClient(i, ClientQuit); }
      else if kind == STATS { StatsRequest(i); }
      else { SafeSay(i, ERROR, "unknown message type"); }
    }

    // -------------------------------------------------------------------- input

    method CountMalformedFrame()
      requires Valid()
      modifies this
      ensures Valid() && parts == old(parts)
      ensures state == CountMalformed(old(state))
    {
      malformedFrames := malformedFrames + 1;
      state := CountMalformed(state);
    }

    method IsLive(i: nat) returns (r: bool)
      requires Valid() && i < MAX_CLIENTS
      ensures r <==> Live(state, i)
    {
      assert clients[i].Holds(state.clients[i]);
      r := clients[i].fd >= 0;
    }

    /** The call of handle_frame in drain_input. */
    method DispatchFirst(i: nat, kind: byte, size: nat)
      requires Valid() && i < MAX_CLIENTS && FrameReady(state.clients[i].inbuf)
      requires kind == state.clients[i].inbuf[0] && size == Announced(state.clients[i].inbuf)
      modifies this, channels, parts
      ensures Valid() && fresh(parts - old(parts))
      ensures state == Dispatch(old(state), i, FirstFrame(old(state).clients[i].inbuf))
    {
      ghost var f := FirstFrame(state.clients[i].inbuf);
      assert clients[i].Holds(state.clients[i]);
      PayloadInPlace(clients[i].inbuf[..], clients[i].inbufLen, size);
      assert f.payload == clients[i].inbuf[HEADER_SIZE..HEADER_SIZE + size];
      Remember(i, f);
      Handle(i, kind, size, f.payload);
    }

    /** The frame enters the history; nothing the program stores changes. */
    ghost method Remember(i: nat, f: Frame)
      requires Valid() && i < MAX_CLIENTS
      modifies `state
      ensures Valid() && state == Dispatching(old(state), i, f)
    {
      assert clients[i].Holds(state.clients[i]);
      state := Dispatching(state, i, f);
      assert SlotsAre(clients, parts, state.clients);
    }

    /** memmove in drain_input. */
    method ShiftInput(i: nat, size: nat)
      requires Valid() && i < MAX_CLIENTS && size <= |state.clients[i].inbuf|
      modifies `state, clients[i], clients[i].inbuf
      ensures Valid()
      ensures state == Consume(old(state), i, old(state).clients[i].inbuf[size..])
    {
      ghost var next := Consume(state, i, state.clients[i].inbuf[size..]);
      ShiftSlot(clients, parts, state.clients, i, size);
      assert SlotsAre(clients, parts, next.clients);
      state := next;
    }

    /** Handle the first frame and, if the client is still there, move the rest forward.
        t: the state after the frame is handled. */
    method HandleFirst(i: nat, kind: byte, size: nat, ghost b: Bytes, ghost t: State) returns (alive: bool)
      requires Valid() && i < MAX_CLIENTS && b == state.clients[i].inbuf && FrameReady(b)
      requires kind == b[0] && size == Announced(b) && t == Dispatch(state, i, FirstFrame(b))
      requires Live(t, i) ==> t.clients[i].inbuf == b
      modifies this, channels, parts
      ensures Valid() && fresh(parts - old(parts))
      ensures alive <==> Live(t, i)
      ensures state == if Live(t, i) then Consume(t, i, AfterFirst(b)) else t
    {
      assert AfterFirst(b) == b[HEADER_SIZE + size..];
      DispatchFirst(i, kind, size);
      assert state == t;
      alive := IsLive(i);
      if alive {
        ShiftInput(i, HEADER_SIZE + size);
      }
    }

    /** The answer to a malformed header. */
    method RefuseFrame(i: nat)
      requires Valid() && i < MAX_CLIENTS
      modifies this, channels, parts
      ensures Valid() && fresh(parts - old(parts))
      ensures state == Say(CountMalformed(old(state)), i, ERROR, "malformed frame")
    {
      CountMalformedFrame();
      SafeSay(i, ERROR, "malformed frame");
    }

    /** One round of the loop of drain_input. */
    method DrainOne(i: nat) returns (done: bool, ok: bool)
      requires Valid() && i < MAX_CLIENTS && DrainsCleanly(state, i) && |state.clients[i].inbuf| >= HEADER_SIZE
      modifies this, channels, parts
      ensures Valid() && fresh(parts - old(parts))
      ensures if done then Outcome(state, ok) == Drain(old(state), i)
              else i < |state.clients| && |state.clients[i].inbuf| < |old(state).clients[i].inbuf|
                   && DrainsCleanly(state, i) && Drain(state, i) == Drain(old(state), i)
    {
      var kind, size;
      ok, kind, size := FirstHeader(i);
      done := true;
      if !ok {
        RefuseFrame(i);
      } else {
        var whole := HasBytes(i, HEADER_SIZE + size);
        if whole {
          ghost var b := state.clients[i].inbuf;
          ok := HandleFirst(i, kind, size, b, Dispatch(state, i, FirstFrame(b)));
          done := !ok;
        }
      }
    }

    method FirstHeader(i: nat) returns (ok: bool, kind: byte, size: nat)
      requires Valid() && i < MAX_CLIENTS && |state.clients[i].inbuf| >= HEADER_SIZE
      ensures ok <==> !Malformed(state.clients[i].inbuf)
      ensures ok ==> kind == state.clients[i].inbuf[0] && size == Announced(state.clients[i].inbuf)
    {
      assert clients[i].Holds(state.clients[i]);
      ok, kind, size := Protocol.ParseHeader(clients[i].inbuf, clients[i].inbufLen);
    }

    method HasBytes(i: nat, size: nat) returns (r: bool)
      requires Valid() && i < MAX_CLIENTS
      ensures r <==> |state.clients[i].inbuf| >= size
    {
      assert clients[i].Holds(state.clients[i]);
      r := clients[i].inbufLen >= size;
    }

    /** drain_input. */
    method DrainInput(i: nat) returns (ok: bool)
      requires Valid() && i < MAX_CLIENTS && DrainsCleanly(state, i)
      modifies this, channels, parts
      ensures Valid() && fresh(parts - old(parts))
      ensures Outcome(state, ok) == Drain(old(state), i)
    {
      ok := true;
      var done := false;
      while !done
        invariant Valid() && fresh(parts - old(parts))
        invariant if done then Outcome(state, ok) == Drain(old(state), i)
                  else DrainsCleanly(state, i) && Drain(state, i) == Drain(old(state), i)
        decreases !done, |state.clients[i].inbuf|
      {
        var more := HasBytes(i, HEADER_SIZE);
        if more {
          done, ok := DrainOne(i);
        } else {
          done, ok := true, true;
        }
      }
    }

    /** recv has delivered a chunk. */
    method ReceiveChunk(i: nat, chunk: Bytes)
      requires Valid() && i < MAX_CLIENTS && |state.clients[i].inbuf| + |chunk| <= INBUF_CAP
      modifies `state, clients[i], clients[i].inbuf
      ensures Valid()
      ensures state == Append(old(state), i, chunk)
    {
      ghost var d := Append(state, i, chunk).clients[i];
      ReceiveInto(clients, parts, state.clients, i, chunk, d);
      state := Append(state, i, chunk);
    }

    method RoomLeft(i: nat) returns (room: nat)
      requires Valid() && i < MAX_CLIENTS
      ensures |state.clients[i].inbuf| + room == INBUF_CAP
    {
      assert clients[i].Holds(state.clients[i]);
      room := INBUF_CAP - clients[i].inbufLen;
    }

    /** recv has delivered a chunk: append it and drain the buffer. */
    method ReadChunkOf(i: nat, chunk: Bytes) returns (ok: bool)
      requires Valid() && i < MAX_CLIENTS && |state.clients[i].inbuf| + |chunk| <= INBUF_CAP
      requires DrainsCleanly(Append(state, i, chunk), i)
      modifies this, channels, parts
      ensures Valid() && fresh(parts - old(parts))
      ensures Outcome(state, ok) == Drain(Append(old(state), i, chunk), i)
    {
      ReceiveChunk(i, chunk);
      ok := DrainInput(i);
    }

    /** One round of the loop of read_from_client. */
    method ReadOnce(i: nat, answers: seq<Recv>) returns (done: bool, rest: seq<Recv>)
      requires Valid() && i < MAX_CLIENTS && ReadsCleanly(state, i, answers)
      modifies this, channels, parts
      ensures Valid() && fresh(parts - old(parts))
      ensures if done then state == ReadFrom(old(state), i, answers)
              else ReadsCleanly(state, i, rest) && ReadFrom(state, i, rest) == ReadFrom(old(state), i, answers)
                   && Fewer(rest, answers)
    {
      done, rest := true, answers;
      var room := RoomLeft(i);
      if room == 0 {
        ResetClient(i, BufferFull);
      } else if answers != [] && answers[0].RecvInterrupted? {
        done, rest := false, answers[1..];
      } else if answers != [] && answers[0].RecvError? {
        ResetClient(i, RecvFailed);
      } else if answers != [] && answers[0].Data? {
        if answers[0].bytes == [] {
          ResetClient(i, PeerClosed);
        } else {
          done, rest := ReadData(i, answers, room);
        }
      }
    }

    /** recv returns what has arrived, as far as the buffer has room. */
    method ReadData(i: nat, answers: seq<Recv>, room: nat) returns (done: bool, rest: seq<Recv>)
      requires Valid() && i < MAX_CLIENTS && ReadsCleanly(state, i, answers)
      requires answers != [] && answers[0].Data? && answers[0].bytes != []
      requires room > 0 && |state.clients[i].inbuf| + room == INBUF_CAP
      modifies this, channels, parts
      ensures Valid() && fresh(parts - old(parts))
      ensures if done then state == ReadFrom(old(state), i, answers)
              else i < |state.clients| && ReadsCleanly(state, i, rest)
                   && ReadFrom(state, i, rest) == ReadFrom(old(state), i, answers)
      ensures Fewer(rest, answers)
    {
      var n := Min(|answers[0].bytes|, room);
      ChunkIsClean(state, i, answers, n);
      ReadFromChunk(state, i, answers, n);
      var ok := ReadChunkOf(i, answers[0].bytes[..n]);
      done, rest := !ok, Later(answers, n);
    }

    static ghost predicate Fewer(rest: seq<Recv>, answers: seq<Recv>) {
      || |rest| < |answers|
      || (|rest| == |answers| && Waiting(rest) < Waiting(answers))
    }

    static ghost function Waiting(answers: seq<Recv>): nat {
      if answers != [] && answers[0].Data? then |answers[0].bytes| else 0
    }

    /** read_from_client, with the answers recv gives. */
    method ReadClient(i: nat, answers: seq<Recv>)
      requires Valid() && i < MAX_CLIENTS && ReadsCleanly(state, i, answers)
      modifies this, channels, parts
      ensures Valid() && fresh(parts - old(parts))
      ensures state == ReadFrom(old(state), i, answers)
    {
      var done, rest := false, answers;
      while !done
        invariant Valid() && fresh(parts - old(parts))
        invariant if done then state == ReadFrom(old(state), i, answers)
                  else ReadsCleanly(state, i, rest) && ReadFrom(state, i, rest) == ReadFrom(old(state), i, answers)
        decreases !done, |rest|, Waiting(rest)
      {
        done, rest := ReadOnce(i, rest);
      }
    }

    // ------------------------------------------------------------------- output

    /** send has taken n bytes. */
    method TakeSent(i: nat, n: nat)
      requires Valid() && i < MAX_CLIENTS && n > 0
      requires var q := state.clients[i].queue; q != [] && q[0].sent + n <= |q[0].data|
      modifies `state, parts
      ensures Valid() && parts == old(parts)
      ensures state == Update(old(state), i, Progress(old(state).clients[i], n))
    {
      TakeFromHead(clients, parts, state.clients, i, n);
      state := Update(state, i, Progress(state.clients[i], n));
    }

    /** What write_to_client offers to send next: none if the queue is empty. */
    method Offered(i: nat) returns (waiting: bool, size: nat)
      requires Valid() && i < MAX_CLIENTS
      ensures var q := state.clients[i].queue;
        && (waiting <==> q != [])
        && (q != [] ==> size == if q[0].sent < |q[0].data| then |q[0].data| - q[0].sent else 0)
    {
      assert clients[i].Holds(state.clients[i]);
      var frame := clients[i].outHead;
      waiting := frame != null;
      size := 0;
      if frame != null && frame.sent < |frame.data| {
        size := |frame.data| - frame.sent;
      }
    }

    /** write_to_client, with the answers send gives. */
    method WriteClient(i: nat, answers: seq<Send>)
      requires Valid() && i < MAX_CLIENTS
      modifies this, channels, parts
      ensures Valid() && fresh(parts - old(parts))
      ensures state == WriteTo(old(state), i, answers)
    {
      var rest, more := answers, true;
      while more
        invariant Valid() && fresh(parts - old(parts))
        invariant WriteTo(old(state), i, answers) == if more then WriteTo(state, i, rest) else state
        decreases |rest|, more
      {
        more := SendOnce(i, rest);
        if more {
          rest := rest[1..];
        }
      }
    }

    /** One call of send, if there is something to send and an answer to come. */
    method SendOnce(i: nat, answers: seq<Send>) returns (more: bool)
      requires Valid() && i < MAX_CLIENTS
      modifies this, channels, parts
      ensures Valid() && fresh(parts - old(parts))
      ensures more ==> answers != []
      ensures WriteTo(old(state), i, answers) == if more then WriteTo(state, i, answers[1..]) else state
    {
      var waiting, size := Offered(i);
      more := false;
      if waiting && answers != [] && !answers[0].SendAgain? {
        if answers[0].SendInterrupted? {
          more := true;
        } else if answers[0].SendError? || answers[0].count == 0 || size == 0 {
          ResetClient(i, SendFailed);
        } else {
          WriteGoesOn(state, i, answers);
          TakeCount(i, answers[0].count, size);
          more := true;
        }
      }
    }

    /** send has taken what it could of the bytes it was offered. */
    method TakeCount(i: nat, count: nat, size: nat)
      requires Valid() && i < MAX_CLIENTS && count > 0 && size > 0
      requires var q := state.clients[i].queue; q != [] && q[0].sent + size == |q[0].data|
      modifies `state, parts
      ensures Valid() && parts == old(parts)
      ensures state == Wrote(old(state), i, count)
    {
      TakeSent(i, Min(count, size));
    }

    // ---------------------------------------------------------------- poll loop

    method FreeSlot() returns (r: int)
      requires Valid()
      ensures r == FindFree(state.clients)
    {
      for j := 0 to MAX_CLIENTS
        invariant forall k :: 0 <= k < j ==> state.clients[k].fd >= 0
      {
        assert clients[j].Holds(state.clients[j]);
        if clients[j].fd < 0 {
          return j;
        }
      }
      return -1;
    }

    /** One accepted descriptor. */
    method AdmitOne(a: Accept)
      requires Valid() && a.Fd?
      modifies this, channels, parts
      ensures Valid() && fresh(parts - old(parts))
      ensures state == Admit(old(state), a)
    {
      var slot := FreeSlot();
      if slot >= 0 && a.nonblocking {
        Occupy(slot, a.fd);
      }
    }

    method Occupy(slot: nat, fd: nat)
      requires Valid() && slot < MAX_CLIENTS
      modifies this, parts
      ensures Valid() && parts == old(parts)
      ensures state == Seat(old(state), slot, fd)
    {
      ghost var d := Fresh(state, fd);
      OccupySlot(clients, parts, state.clients, slot, fd, d);
      currentConnections := currentConnections + 1;
      totalConnections := totalConnections + 1;
      state := Seat(state, slot, fd);
    }

    /** accept_clients, with the answers accept gives. */
    method AcceptClients(answers: seq<Accept>)
      requires Valid()
      modifies this, channels, parts
      ensures Valid() && fresh(parts - old(parts))
      ensures state == AcceptAll(old(state), answers)
    {
      var rest := answers;
      while rest != []
        invariant Valid() && fresh(parts - old(parts))
        invariant AcceptAll(state, rest) == AcceptAll(old(state), answers)
        decreases |rest|
      {
        if rest[0].AcceptAgain? || rest[0].AcceptError? {
          return;
        }
        if rest[0].Fd? {
          AdmitOne(rest[0]);
        }
        rest := rest[1..];
      }
    }

    method LookUpFd(fd: int) returns (r: int)
      requires Valid()
      ensures r == FindFd(state.clients, fd)
    {
      for j := 0 to MAX_CLIENTS
        invariant forall k :: 0 <= k < j ==> state.clients[k].fd != fd
      {
        assert clients[j].Holds(state.clients[j]);
        if clients[j].fd == fd {
          return j;
        }
      }
      return -1;
    }

    /** The body of the loop over the polled descriptors. */
    method ServeOne(fd: int, ev: Revents)
      requires Valid() && ServesCleanly(state, fd, ev)
      modifies this, channels, parts
      ensures Valid() && fresh(parts - old(parts))
      ensures state == Serve(old(state), fd, ev)
    {
      var i := LookUpFd(fd);
      if i >= 0 {
        if ev.error {
          ResetClient(i, PollError);
        } else {
          ServeClient(i, ev);
        }
      }
    }

    method ServeClient(i: nat, ev: Revents)
      requires Valid() && i < MAX_CLIENTS && (ev.readable ==> ReadsCleanly(state, i, ev.recvs))
      modifies this, channels, parts
      ensures Valid() && fresh(parts - old(parts))
      ensures var t := if ev.readable then ReadFrom(old(state), i, ev.recvs) else old(state);
        state == if Live(t, i) && ev.writable then WriteTo(t, i, ev.sends) else t
    {
      if ev.readable {
        ReadClient(i, ev.recvs);
      }
      var alive := IsLive(i);
      if alive && ev.writable {
        WriteClient(i, ev.sends);
      }
    }

    /** The descriptors handed to poll. */
    method PollSet() returns (fds: seq<int>)
      requires Valid()
      ensures fds == Polled(state.clients)
    {
      fds := [];
      for j := 0 to MAX_CLIENTS
        invariant fds == Polled(state.clients[..j])
      {
        assert clients[j].Holds(state.clients[j]);
        assert state.clients[..j + 1][..j] == state.clients[..j];
        if clients[j].fd >= 0 {
          fds := fds + [clients[j].fd];
        }
      }
      assert state.clients[..MAX_CLIENTS] == state.clients;
    }

    /** One round of main's loop in which poll reports something. */
    method PollRound(p: Pass)
      requires Valid() && Sound(state) && AllSettled(state) && PassOk(state, p)
      modifies this, channels, parts
      ensures Valid() && fresh(parts - old(parts))
      ensures state == PollPass(old(state), p)
      ensures Sound(state) && AllSettled(state)
    {
      ghost var states := PassRounds(state, p);
      var fds := PollSet();
      AcceptAndServe(p, fds, states);
    }

    /** states: what accepting, and then each descriptor, makes of the server. */
    method AcceptAndServe(p: Pass, fds: seq<int>, ghost states: seq<State>)
      requires Valid() && RoundsServe(states, fds, p.events)
      requires states[0] == if p.listening then AcceptAll(state, p.accepts) else state
      modifies this, channels, parts
      ensures Valid() && fresh(parts - old(parts))
      ensures state == states[|fds|]
    {
      AcceptIfListening(p, states[0]);
      ServePolled(fds, p.events, states);
    }

    method AcceptIfListening(p: Pass, ghost next: State)
      requires Valid() && next == if p.listening then AcceptAll(state, p.accepts) else state
      modifies this, channels, parts
      ensures Valid() && fresh(parts - old(parts))
      ensures state == next
    {
      if p.listening {
        AcceptClients(p.accepts);
      }
    }

    /** The loop over the polled descriptors; states: what each round makes of the server. */
    method ServePolled(fds: seq<int>, events: seq<Revents>, ghost states: seq<State>)
      requires Valid() && RoundsServe(states, fds, events) && states[0] == state
      modifies this, channels, parts
      ensures Valid() && fresh(parts - old(parts))
      ensures state == states[|fds|]
    {
      for k := 0 to |fds|
        invariant Valid() && fresh(parts - old(parts))
        invariant state == states[k]
      {
        ServeNth(fds[k], events, k, states[k + 1]);
      }
    }

    method ServeNth(fd: int, events: seq<Revents>, k: nat, ghost next: State)
      requires Valid() && Serves(state, fd, events, k, next)
      modifies this, channels, parts
      ensures Valid() && fresh(parts - old(parts))
      ensures state == next
    {
      if k < |events| {
        ServeOne(fd, events[k]);
      }
    }
  }

  lemma {:induction false} RunOkPrefix(s: State, ps: seq<Pass>, k: nat)
    requires RunOk(s, ps) && k <= |ps|
    ensures RunOk(s, ps[..k])
    ensures k < |ps| ==> PassOk(Run(s, ps[..k]), ps[k])
    decreases |ps|
  {
    if k < |ps| {
      var front := ps[..|ps| - 1];
      assert front[..k] == ps[..k];
      RunOkPrefix(s, front, k);
      if k < |front| {
        assert front[k] == ps[k];
      } else {
        assert front[..k] == front;
      }
    } else {
      assert ps[..k] == ps;
    }
  }

  /** main: a server that lives through the given passes ends in a reachable state, the one
      the functions of core.dfy compute. */
  method RunServer(maxQueueBytes: nat, calloc: nat -> bool, passes: seq<Pass>) returns (server: Server)
    requires RunOk(Initial(maxQueueBytes, calloc), passes)
    ensures server.Valid()
    ensures server.state == Run(Initial(maxQueueBytes, calloc), passes)
    ensures Reachable(server.state)
  {
    server := new Server(maxQueueBytes, calloc);
    InitialSound(maxQueueBytes, calloc);
    MainLoop(server, Initial(maxQueueBytes, calloc), passes);
  }

  method MainLoop(server: Server, ghost start: State, passes: seq<Pass>)
    requires server.Valid() && Sound(start) && AllSettled(start) && RunOk(start, passes) && server.state == start
    modifies server, server.channels, server.parts
    ensures server.Valid() && server.state == Run(start, passes)
  {
    for k := 0 to |passes|
      invariant server.Valid() && fresh(server.parts - old(server.parts))
      invariant server.state == Run(start, passes[..k])
    {
      NextPass(server, start, passes, k);
    }
    assert passes[..|passes|] == passes;
  }

  /** The k-th round of main's loop. */
  method NextPass(server: Server, ghost start: State, passes: seq<Pass>, k: nat)
    requires server.Valid() && Sound(start) && AllSettled(start)
    requires k < |passes| && RunOk(start, passes) && server.state == Run(start, passes[..k])
    modifies server, server.channels, server.parts
    ensures server.Valid() && fresh(server.parts - old(server.parts))
    ensures server.state == Run(start, passes[..k + 1])
  {
    RunOkPrefix(start, passes, k);
    RunSound(start, passes[..k]);
    RunStep(start, passes, k);
    server.PollRound(passes[k]);
  }

  lemma RunStep(s: State, ps: seq<Pass>, k: nat)
    requires k < |ps|
    ensures Run(s, ps[..k + 1]) == PollPass(Run(s, ps[..k]), ps[k])
  {
    assert ps[..k + 1][..k] == ps[..k];
  }
}
