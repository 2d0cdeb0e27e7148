/** One slot of the client table with its reassembly buffer and its outgoing queue, a
    singly linked list with a tail pointer. Each method is proved against the function
    of core.dfy that says what it does to the connection. */
module ClientSlot {
  import opened Bytes
  import opened Wire
  import opened Core

  /** A heap-allocated out_frame. Its bytes are written once, before it is linked. */
  class OutFrame {
    const data: Bytes
    var sent: nat
    var next: OutFrame?
    ghost const owner: Client

    constructor (owner: Client, data: Bytes)
      ensures this.owner == owner && this.data == data && sent == 0 && next == null
    {
      this.owner := owner;
      this.data := data;
      sent := 0;
      next := null;
    }
  }

  class Client {
    var fd: int
    var registered: bool
    var username: Bytes
    var active: Bytes
    const joined: array<bool>
    const inbuf: array<byte>
    var inbufLen: nat
    var outHead: OutFrame?
    var outTail: OutFrame?
    var queuedBytes: int
    ghost var nodes: seq<OutFrame>

    /** The queue is a list without cycles from outHead, and outTail is its last node. */
    ghost predicate QueueShape()
      reads this, nodes
    {
      && (forall k :: 0 <= k < |nodes| ==> nodes[k].owner == this)
      && (forall j, k :: 0 <= j < k < |nodes| ==> nodes[j] != nodes[k])
      && (forall k :: 0 <= k < |nodes| - 1 ==> nodes[k].next == nodes[k + 1])
      && (if nodes == [] then outHead == null && outTail == null
          else outHead == nodes[0] && outTail == nodes[|nodes| - 1] && nodes[|nodes| - 1].next == null)
    }

    ghost predicate Queues(q: seq<Queued>)
      reads this, nodes
    {
      && QueueShape()
      && |nodes| == |q|
      && forall k :: 0 <= k < |q| ==> nodes[k].data == q[k].data && nodes[k].sent == q[k].sent
    }

    /** The slot stores exactly what c says. */
    ghost predicate Holds(c: Conn)
      reads this, joined, inbuf, nodes
    {
      && joined.Length == MAX_CHANNELS && inbuf.Length == INBUF_CAP && inbufLen <= INBUF_CAP
      && fd == c.fd && registered == c.registered && username == c.username && active == c.active
      && joined[..] == c.joined && inbuf[..inbufLen] == c.inbuf
      && Queues(c.queue) && queuedBytes == c.queuedBytes
    }

    /** The slot, its buffers and its queued frames are among the given objects. */
    ghost predicate Within(objects: set<object>)
      reads this
    {
      && this in objects && joined in objects && inbuf in objects
      && forall k :: 0 <= k < |nodes| ==> nodes[k] in objects
    }

    constructor ()
      ensures Holds(Blank()) && fresh(joined) && fresh(inbuf) && nodes == []
    {
      fd, registered, username, active := -1, false, [], [];
      joined := new bool[MAX_CHANNELS](_ => false);
      inbuf := new byte[INBUF_CAP];
      inbufLen, outHead, outTail, queuedBytes := 0, null, null, 0;
      nodes := [];
      new;
      assert joined[..] == Blank().joined;
    }

    /** The tail of enqueue_payload. */
    method Link(frame: OutFrame, f: Frame, ghost c: Conn)
      requires Holds(c) && |f.payload| <= MAX_PAYLOAD
      requires frame !in nodes && frame.owner == this
      requires frame.data == EncodeFrame(f) && frame.sent == 0 && frame.next == null
      modifies this, outTail
      ensures Holds(Push(c, f)) && nodes == old(nodes) + [frame]
    {
      if outTail != null {
        outTail.next := frame;
      } else {
        outHead := frame;
      }
      outTail := frame;
      queuedBytes := queuedBytes + HEADER_SIZE + |f.payload|;
      nodes := nodes + [frame];
    }

    /** free_queue. */
    method FreeQueue(ghost q: seq<Queued>)
      requires Queues(q)
      modifies this`outHead, this`outTail, this`queuedBytes, this`nodes
      ensures Queues([]) && nodes == [] && queuedBytes == 0
    {
      var cur := outHead;
      ghost var k := 0;
      while cur != null
        invariant k <= |nodes| && cur == (if k < |nodes| then nodes[k] else null)
        decreases |nodes| - k
      {
        cur := cur.next;
        k := k + 1;
      }
      outHead, outTail, queuedBytes := null, null, 0;
      nodes := [];
    }

    /** memset(c, 0, sizeof *c) and fd = -1, after free_queue. */
    method Clear(ghost c: Conn)
      requires Holds(c)
      modifies this, joined, inbuf
      ensures Holds(Blank()) && nodes == []
    {
      FreeQueue(c.queue);
      fd, registered, username, active := -1, false, [], [];
      inbufLen := 0;
      forall k | 0 <= k < joined.Length {
        joined[k] := false;
      }
      forall k | 0 <= k < inbuf.Length {
        inbuf[k] := 0;
      }
      assert joined[..] == Blank().joined;
    }

    method SetSession(channel: nat, flag: bool, name: Bytes, ghost c: Conn, ghost d: Conn)
      requires Holds(c) && channel < MAX_CHANNELS
      requires d == c.(joined := c.joined[channel := flag], active := name, history := d.history)
      modifies this`active, joined
      ensures Holds(d)
    {
      joined[channel] := flag;
      active := name;
    }

    /** recv has written a chunk behind the bytes in the buffer. */
    method Receive(chunk: Bytes, ghost c: Conn, ghost d: Conn)
      requires Holds(c) && inbufLen + |chunk| <= INBUF_CAP
      requires d == c.(inbuf := c.inbuf + chunk, history := d.history)
      modifies this`inbufLen, inbuf
      ensures Holds(d)
    {
      forall k | 0 <= k < |chunk| {
        inbuf[inbufLen + k] := chunk[k];
      }
      inbufLen := inbufLen + |chunk|;
    }

    /** memmove of what follows a frame to the front. */
    method Shift(size: nat, ghost c: Conn)
      requires Holds(c) && size <= inbufLen
      modifies this`inbufLen, inbuf
      ensures Holds(c.(inbuf := c.inbuf[size..]))
    {
      var rest := inbufLen - size;
      forall k | 0 <= k < rest {
        inbuf[k] := inbuf[size + k];
      }
      inbufLen := rest;
    }

    /** send took n bytes of the head frame. */
    method Take(n: nat, ghost c: Conn)
      requires Holds(c) && c.queue != [] && n > 0 && c.queue[0].sent + n <= |c.queue[0].data|
      modifies this, outHead
      ensures Holds(Progress(c, n))
      ensures nodes == old(nodes) || nodes == old(nodes)[1..]
    {
      var frame := outHead;
      frame.sent := frame.sent + n;
      if frame.sent == |frame.data| {
        outHead := frame.next;
        if outHead == null {
          outTail := null;
        }
        queuedBytes := queuedBytes - |frame.data|;
        nodes := nodes[1..];
      }
    }
  }
}
