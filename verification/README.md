# ChannelWire, verified

A Dafny model of ChannelWire and proofs about it: the messaging core written in C, the
WebSocket gateway and message store written in Python, the wire codec both sides share, and
two small state machines of the dashboard. `dafny verify dfyconfig.toml` checks everything.

## The core

`core.dfy` says what the event loop does to the state of the server, routine by routine, as
functions: slots, channel table, outgoing queues with partial sends, reassembly buffers,
counters, and the answers that `accept`, `recv`, `send`, `poll` and `calloc` give. The state
also carries histories the program does not store: bytes received and sent, frames dispatched
and accepted, when each membership began, one log of broadcasts, the closed connections.

`server.dfy`, `client.dfy` and `protocol.dfy` are the server in its own form: an array of
`Client` objects that are emptied in place, heap nodes linked from head to tail, byte arrays
written through offsets, loops in which any client, the caller's own included, may be
disconnected. `Client.Holds` ties a slot to a queue of distinct nodes that runs from the head
to the tail and ends there. Each method is proved to do what the function of its routine says, and
`RunServer` ties a whole run of the loop to the functions.

The invariant is in `core_invariant.dfy` and `core_delivery.dfy`; `core_commands.dfy` and
`core_run.dfy` prove that every command, read, write, accept and poll pass keeps it, so that
it holds in every reachable state. `core_laws.dfy` says what it means to clients:

- total order: a member has been sent exactly the channel's log since it joined;
- conservation: bytes sent and queued are the frames accepted, so the peer reads a prefix;
- chunking: what is dispatched depends on the bytes received only, never on how they came;
- no stale event: a report of `poll` never reaches a newcomer on a reused descriptor;
- unique names, exact counters, bounded queues, a buffer that never jams.

The other side, what must happen, is stated from what the clients, the queues and the answers
of the operating system are, and not from the functions that compute it. `core_outcomes.dfy`
and `core_replies.dfy` give every command its whole effect: who is sent which frame, by room
and memory alone, who is dropped, and that nobody else is touched. `core_io.dfy` does the same
for reading, writing, accepting and a poll pass: whom a free slot must go to, which bytes must
have been received and sent, and when a connection must end. `core_stats.dfy` reads the text
of STATS back.

`core_sessions.dfy` gives the commands a second meaning, over names and sets of channels
without slots and indices, and proves that every command agrees with it and touches no other
session. `core_text.dfy` has the exact bounds of WHO and LIST; `core_clean.dfy` shows that
`drain_input` always shifts the buffer of the client it read from.

## The codec

`wire.dfy` has frames and length-prefixed strings with their inverses, and shows that the C
readers and the Python reader accept the same payloads and read the same strings.
`client_library.dfy` has the loops of the Python library over a socket that delivers bytes in
arbitrary pieces.

## The gateway

`bridge.dfy` is the WebSocket bridge as interleaved steps: two pumps per session sharing
`pending_dms`, all sessions sharing `active_gateway_users`, FIFO channels to a core that may
deliver, refuse, drop, rename, protest or stay silent. Two odd endings are part of it. When one
pump fails, `task.result()` raises before the other task is cancelled, so the core pump may go
on handling, or the browser's pump go on remembering DMs, after the `finally` block. And when
sending the ready frame fails, the endpoint ends outside the `try`, with its name counted for
ever.

Proved over all runs, NICK included:

- a session saves a broadcast exactly once if it has handled it and knows its own user as the
  sender, and otherwise never; so a broadcast is saved once, in order, by its sender's session
  unless a session of that user was renamed;
- a recipient's session saves a DM exactly when it handles it while the sender's name is not
  counted; and while replies pair up, a DM is saved exactly once if and only if exactly one of
  two things has happened: that, or the confirmation at the sender's session;
- replies and pending DMs stay in step exactly as long as no DM goes unanswered, no other
  error is handled while a DM is pending and no DM is remembered that cannot leave any more;
  the last happens only to a session that handles no reply any more and saves nothing.

`bridge_limits.dfy` has runs for the other side of each condition: a DM saved twice, lost, or
saved under the wrong text, a broadcast lost by NICK, and one saved for somebody else.

`core_bridge.dfy` and `core_bridge_laws.dfy` show that every frame the core handles is a run of
steps the bridge's core may take, with the same names and the same frames to every client,
drops included. `core_closed.dfy`, `core_bridge_books.dfy`, `core_bridge_ties.dfy` and
`core_bridge_run.dfy` make it the whole loop: the core's log is the list of broadcasts, its
count of direct messages the number of deliveries, and every session that is not connected any
more is a connection the core has closed, cut where one likes. So the laws hold of the core's
own log: each of its lines is saved exactly as often as a session handles it as its own.

`gateway.dfy` is the same gateway changing its deque, dictionary and tables in place, and the
translation of commands and frames; `gateway_run.dfy` drives it through any run of the bridge.
`gateway_laws.dfy` says exactly which commands pass, what the core then does with them, and
what the browser is shown of the answers.
`store.dfy` is the database: what a unit of work adds, exactly when a commit fails, and that
histories are the last messages saved, and who is in the tables. `bridge_history.dfy` joins the two: what
`channel_history` shows of any run.

## The dashboard

`readiness.dfy` and `reconnect.dfy` are the readiness check and the reconnecting socket, as
functions on the component's refs together with the browser's timers, requests and sockets,
and as classes that change them in place; each has a law that says what every event must do.

## Where code and intent differ

The model follows the code.

- A malformed header is not consumed and does not close the connection, so every further
  chunk counts another malformed frame (`CoreLaws.ChunkCountsExactly`). Behind one, a chunk
  ends the reading, so that an end of the stream right after it is noticed only by the next
  report (`CoreIo.ReadOutcome`).
- A DM whose target has no room drops the target and tells the sender nothing
  (`CoreLaws.DirectMessageOutcome`); the gateway's pairing of replies is then off by one.
- If the sender's session ends between the delivery of a DM and its confirmation or its
  receipt, the DM can be saved twice or not at all (`BridgeLaws.DmSavedExactly` says when).
- `active_gateway_users` is incremented one statement before the `try` that decrements it, and
  that statement sends: a browser that goes away in between leaves its name counted
  (`BridgeLaws.AbandonedIsCountedForEver`).
- The gateway never learns of a NICK: it compares senders with the name of the sign-in
  (`BridgeLimits.NickLosesBroadcasts`, `BridgeLimits.NickSavesForAnother`).
- `finally` in the readiness check clears whatever request timer is current, so a run
  started over a check in flight can lose its timer (`Readiness.RestartInFlight`). The page
  offers "Try again" in the failed state only, in which nothing is in flight.
- `logout` clears the last reconnect timer only; an older one outlives it, and makes no socket
  before the next sign-in (`Reconnect.SignOutClearsExactly`, `Reconnect.ATimerOutlivesSignOut`).

## Model

| member | source | states |
|---|---|---|
| `CoreLaws.MemberSeesTheLog` | core/src/server.c:257-286 | In every reachable state, the CHAT frames for a channel queued to a member since its `joined` flag last went up are exactly the channel's log since that moment, in order, whoever was dropped mid-broadcast |
| `CoreLaws.MembersAgree` | core/src/server.c:257-286 | Of two members of a channel, the one that joined later has been sent exactly the last part of what the other has been sent |
| `CoreLaws.PeerReadsAPrefix` | core/src/server.c:178-207 | For every live connection, the bytes `send` took followed by the unsent rest of the queue are the encodings of all accepted frames; so the peer reads a prefix of those frames, and all of them once the queue is empty |
| `CoreLaws.ClosedPeerReadAPrefix` | core/src/server.c:226-231 | What went out on a closed connection parses to a prefix of the frames accepted on it |
| `CoreLaws.QueueAccount` | core/src/server.c:28-46 | `queued_bytes` is the sum of the queued frame lengths and never exceeds `max_queue_bytes`; only the head can be partly sent and no queued frame is fully sent |
| `CoreLaws.HandledIsTheParse` | core/src/server.c:598-658 | Between events, the frames dispatched on a connection are the greedy parse of all bytes received, the buffer holds the unparsed rest, and it is full only behind a malformed header |
| `CoreLaws.ChunksDoNotMatter` | core/src/server.c:626-643 | Two connections that received the same bytes have dispatched the same frames, however `recv` split them |
| `CoreLaws.ClosedHandledAPrefix` | core/src/server.c:598-624 | A closed connection has dispatched a prefix of the parse of what it received: nothing is dispatched after a malformed header or the close |
| `CoreLaws.ChunkCountsExactly` | core/src/server.c:598-624 | A chunk that a surviving client sends adds one to the malformed count exactly when a malformed header is in front of its buffer once the chunk is worked off, and otherwise nothing; never more than one, even if the client is dropped |
| `CoreLaws.EachChunkCountsAgain` | core/src/server.c:603-607 | Behind a malformed header every further chunk counts one more malformed frame and dispatches nothing: the count depends on the chunks, the frames do not |
| `CoreRun.FullOnlyWhenMalformed` | core/src/server.c:626-634 | A buffer that is full with everything complete handled starts with a malformed header: `recv` is otherwise always asked for at least one byte |
| `CoreLaws.NoStaleEvent` | core/src/server.c:840-868 | Each report of a poll pass acts on the connection that owned the descriptor when `poll` was asked, or on nobody if that one has been closed since; never on a newcomer |
| `CoreLaws.NamesAreUnique` | core/src/server.c:144-152 | In every reachable state two registered live clients have different, valid names |
| `CoreLaws.CountersAreExact` | core/src/server.c:123-133 | `current_connections` is the number of live slots, `total_connections` live plus closed, `channel_messages` the length of the log and `queue_disconnects` the number of connections closed for overflow |
| `CoreLaws.GuardIsNeverNeeded` | core/src/server.c:123-133 | When a live client is reset, `current_connections` is positive, so the guard against underflow never stops the decrement |
| `CoreLaws.SayReachesItsChannel` | core/src/server.c:257-286 | A SAY of a client with an active channel always finds the channel, with the sender on it, never hits the too-large branch (at most 1094 bytes) and appends one message to the log |
| `CoreLaws.DirectMessageOutcome` | core/src/server.c:481-520 | A DM to a registered user is queued to its target exactly if there is room and memory for it, and then confirmed to the sender, who is dropped if there is none for that; otherwise it drops the target and tells the sender nothing; no other slot changes |
| `CoreInvariant.EnqueueExactly` | core/src/server.c:178-207 | A frame is accepted if and only if its payload has at most 4096 bytes, the frames queued and this one fit the limit, and the allocation succeeds; memory is asked for exactly when there is room |
| `CoreOutcomes.SayOutcome` | core/src/server.c:257-286 | An accepted SAY is sent to exactly the registered clients whose channel set has the sender's active channel: each is queued the message if and only if it has room and memory is there at its turn in slot order, and is otherwise closed for overflow; everybody else is untouched and the log grows by the message |
| `CoreOutcomes.SayReachesEverybody` | core/src/server.c:257-286 | If everybody on the channel has room and allocation succeeds, a SAY drops nobody and queues each of them, and nobody else, exactly this one message |
| `CoreOutcomes.FanoutExactly` | core/src/server.c:275-283 | A loop that sends one frame to the members of a channel serves and drops exactly by room and by the allocation each of them asks for, and lists the dropped in slot order |
| `CoreReplies.EveryReply` | core/src/server.c:384-596 | Every command but an accepted SAY, a relayed DM, a granted NICK and QUIT queues its own client exactly one frame, with the kind and text given by the machine over sets, the roster or the table, or drops that client if there is no room or memory for it; nobody else is touched |
| `CoreReplies.WhoListsTheAudience` | core/src/server.c:288-315 | A client on a channel that asks WHO and survives the answer is sent one WHO_RESP whose lines are the names of the registered clients whose channel set has the asker's active channel, itself included, in slot order, whenever they fit in 4095 bytes |
| `CoreReplies.RosterIsAudience` | core/src/server.c:299-311 | A name is on that list if and only if some registered client of that name has the channel in its set |
| `CoreReplies.ListReplies` | core/src/server.c:317-336 | LIST is answered by one frame whose lines are the channel table, never by an error |
| `CoreReplies.NickOutcome` | core/src/server.c:522-544 | A granted NICK queues its reply to the renamed client or drops it; in the first case exactly the others on its active channel are sent the line with the old name (anonymous for none) and the new one, each by room and memory |
| `CoreReplies.QuitCloses` | core/src/server.c:586-588 | QUIT closes the client's own connection at its wish, sends nothing and touches nobody else |
| `CoreReplies.JoinBegins` | core/src/server.c:402-430 | A granted JOIN of a channel the client was not on begins that membership at the frames accepted and broadcasts made so far; of one it is on it moves nothing |
| `CoreReplies.OnlyJoinBegins` | core/src/server.c:546-596 | No other command, and no command of somebody else, moves the beginning of a membership |
| `CoreOutcomes.NameExactly` | core/src/server.c:373-382 | A handler takes a name from its payload if and only if the payload is one string within the buffer whose part before the first NUL is a valid name, and takes that part |
| `CoreOutcomes.TextExactly` | core/src/server.c:562-573 | The text of a SAY likewise: one string of at most 1024 bytes not beginning with a NUL |
| `CoreOutcomes.DirectExactly` | core/src/server.c:481-497 | A DM likewise: two strings within their buffers, the second not empty |
| `CoreStats.StatsReadBack` | core/src/server.c:338-371 | A JSON reader gets the nine named numbers back from the text of STATS, in order |
| `CoreStats.RegisteredAreCounted` | core/src/server.c:343-347 | The count of registered clients is the number of slots that hold one |
| `CoreSessions.CommandsObeyTheSimpleMachine` | core/src/server.c:384-596 | Every command, whenever it is handled, changes the name, channel set and active channel of its own client, the set of channels and the kind of the reply as a machine over sets says, and no other client's session |
| `CoreRun.ReachableIsSound` | core/src/server.c:815-869 | The whole invariant holds in every reachable state: sessions, names, queues, byte streams, input buffers, counters and per-channel delivery |
| `CoreRun.RunOnlyGrows` | core/src/server.c:163-176 | Over any continuation of any run the channel table, the log and the list of closed connections are only appended to, so a channel keeps its index |
| `CoreRun.DrainSound` | core/src/server.c:598-624 | After `drain_input` succeeds the buffer is the rest of the parse and everything complete is dispatched; after it fails the client is gone or its header malformed; the invariant holds either way |
| `CoreRun.ReadSound` | core/src/server.c:626-658 | `read_from_client` keeps the invariant for every sequence of answers of `recv`, and what was received on a surviving connection is a prefix of what those answers offered; what it must receive and when it must close is `CoreIo.ReadOutcome` |
| `CoreRun.WriteSound` | core/src/server.c:660-687 | `write_to_client` keeps the invariant for every sequence of partial sends, EAGAIN, EINTR and errors |
| `CoreRun.AcceptSound` | core/src/server.c:734-773 | `accept_clients` keeps the invariant and leaves everybody who was there as they were, if the descriptors it gets are not open already; whom it must seat is `CoreIo.AcceptSeats` |
| `CoreRun.PassSound` | core/src/server.c:815-869 | One pass of the poll loop keeps the invariant |
| `CoreIo.AcceptSeats` | core/src/server.c:734-773 | Of the descriptors `accept` hands out before EAGAIN or an error, those that could be made non-blocking are seated in order, as many as there are slots free, each in a free slot under the next connection number; live slots and the total grow by exactly that many, nobody else appears, and whoever was there is unchanged |
| `CoreIo.PassSeats` | core/src/server.c:815-869 | In a pass that finds the listener readable, and in no other, the arrivals there are free slots for come in and are counted; at the end of the pass each is still in its slot or gone again |
| `CoreIo.ReadOutcome` | core/src/server.c:626-658 | A client that survives reading has received all bytes that arrive before EAGAIN and its stream has not ended, or has a malformed header in front; one that does not is among the connections closed since, under its number |
| `CoreIo.DrainOutcome` | core/src/server.c:598-624 | Draining is handling the frames of the greedy parse one after the other until the client is gone, and then one counted error if a malformed header is in front |
| `CoreIo.ChunkIsWorked` | core/src/server.c:635-643 | A chunk that fits the buffer is appended, parsed and handled frame by frame, and reading goes on exactly if the client is still there and no malformed header is in front |
| `CoreIo.ReadStops` | core/src/server.c:626-658 | EAGAIN changes nothing, EINTR is skipped, the end of the stream closes the connection as the peer's doing, an error as a failed `recv`, and a full buffer whatever `recv` would say |
| `CoreIo.LongChunk` | core/src/server.c:635-643 | More data than the buffer has room for is read in two goes, the first filling it |
| `CoreIo.WriteOutcome` | core/src/server.c:660-687 | From the lengths of what is left of each queued frame and the answers of `send` alone: exactly those bytes of the unsent stream are taken, in order, and the connection is closed as a failed `send` if and only if one fails or takes nothing with something left |
| `CoreIo.ServeOutcome` | core/src/server.c:846-867 | A report with an error closes its connection for that reason; otherwise it is read from if readable, and then written to if writable and still there |
| `CoreIo.PassReads` | core/src/server.c:815-869 | Over a whole poll pass, whatever is done to others: a connection reported with an error is gone; one reported readable has received all that arrived and its stream has not ended, or has a malformed header in front, or is gone; one not reported readable has received nothing; and whoever is gone is among the connections closed since |
| `CoreIo.PolledCount` | core/src/server.c:817-834 | As many descriptors are polled as clients are live |
| `CoreCommands.HandleFrameSound` | core/src/server.c:546-596 | Whatever one frame makes the core do, the invariant is kept, tables and logs only grow, and clients only disappear or get frames appended |
| `CoreCommands.NickSound` | core/src/server.c:522-544 | NICK keeps the invariant although it goes on after its reply may have dropped its own client |
| `CoreCommands.AnnounceSound` | core/src/server.c:242-255 | The announcement keeps the invariant and does nothing for a client that is gone |
| `CoreDelivery.BroadcastSound` | core/src/server.c:257-286 | A broadcast that may drop any member, the sender included, leaves every remaining member in step with the log |
| `CoreDelivery.FanoutReaches` | core/src/server.c:275-283 | A fan-out gives each member the frame or drops it and leaves everybody else untouched |
| `CoreDelivery.ChatFrameDecodes` | core/src/server.c:267-273 | A CHAT frame reads back to the channel, sender and text it was made of |
| `CoreInvariant.EnqueueKeeps` | core/src/server.c:178-207 | Accepting or refusing a frame keeps queue, account and stream in agreement; a refusal changes no connection |
| `CoreInvariant.OverflowedKeeps` | core/src/server.c:233-240 | The same for a client dropped because a frame could not be queued, with the drop counted |
| `CoreInvariant.ResetKeeps` | core/src/server.c:123-133 | Closing any live slot, for another reason than overflow, keeps the invariant and the counters and leaves the slot empty |
| `CoreText.ListAlwaysFits` | core/src/server.c:317-336 | LIST always fits (at most 2111 bytes), and its text splits into exactly the channel table |
| `CoreText.WhoFitsExactly` | core/src/server.c:288-315 | For any channel, the listing succeeds exactly when the joined names have at most 4095 bytes, hence for up to 124 members, and its text splits into the members in slot order; that the asker's own channel is listed is `CoreReplies.WhoListsTheAudience` |
| `CoreText.SplitInvertsJoin` | gateway/app/main.py:258-263 | Splitting into lines undoes joining with line feeds for every list of names, the empty one included |
| `CoreClean.PassIsClean` | core/src/server.c:615-618 | In every pass from a reachable state, at each frame drained for any report the client is afterwards gone or has its input buffer as before, so `memmove` shifts the bytes of the frame just handled |
| `ServerProcess.Server.EnqueuePayload` | core/src/server.c:178-207 | Allocates a node and links it at the tail, or refuses on size, room or allocation failure: the state function `Enqueue`, which accepts exactly as `CoreInvariant.EnqueueExactly` says |
| `ServerProcess.Server.ResetClient` | core/src/server.c:123-133 | Frees the queue, empties the slot and corrects the counter: the state function `Reset` |
| `ServerProcess.Server.BroadcastChat` | core/src/server.c:257-286 | The loop over all slots that may disconnect any of them, its own caller included: the state function `Broadcast` |
| `ServerProcess.Server.BroadcastSystem` | core/src/server.c:242-255 | The loop that leaves out the sender: the state function `Announce` |
| `ServerProcess.Server.WhoRequest` | core/src/server.c:288-315 | The listing loop into a fixed buffer: the state function `SendWho`, whose answer is that of `CoreReplies.WhoReplies` |
| `ServerProcess.Server.ListRequest` | core/src/server.c:317-336 | The same for the channel table: the state function `SendList` |
| `ServerProcess.Server.StatsRequest` | core/src/server.c:338-371 | The state function `SendStats` |
| `ServerProcess.Server.EnsureChannel` | core/src/server.c:163-176 | Finds a channel, appends it to the table, or finds the table full; the table only grows |
| `ServerProcess.Server.HelloRequest` | core/src/server.c:384-400 | The state function `HandleHello`, errors included |
| `ServerProcess.Server.JoinRequest` | core/src/server.c:402-430 | The state function `JoinChannel`, errors included |
| `ServerProcess.Server.SwitchRequest` | core/src/server.c:432-456 | The state function `SwitchChannel`, errors included |
| `ServerProcess.Server.LeaveRequest` | core/src/server.c:458-479 | The state function `LeaveChannel`, errors included |
| `ServerProcess.Server.DmRequest` | core/src/server.c:481-520 | The state function `HandleDm`, with the target that is dropped silently |
| `ServerProcess.Server.NickRequest` | core/src/server.c:522-544 | The state function `HandleNick`, which goes on after the reply |
| `ServerProcess.Server.SayRequest` | core/src/server.c:562-573 | The state function `HandleSay` |
| `ServerProcess.Server.Handle` | core/src/server.c:546-596 | The dispatch of one frame: the state function `HandleFrame` |
| `ServerProcess.Server.DrainInput` | core/src/server.c:598-624 | The drain loop over the reassembly buffer: the state function `Drain` |
| `ServerProcess.Server.ReadClient` | core/src/server.c:626-658 | The recv loop: the state function `ReadFrom`, characterised by `CoreIo.ReadOutcome`, `CoreIo.ChunkIsWorked` and `CoreIo.ReadStops` |
| `ServerProcess.Server.WriteClient` | core/src/server.c:660-687 | The send loop over the linked queue: the state function `WriteTo`, characterised by `CoreIo.WriteOutcome` |
| `ServerProcess.Server.AcceptClients` | core/src/server.c:734-773 | The accept loop: the state function `AcceptAll`, characterised by `CoreIo.AcceptSeats` |
| `ServerProcess.Server.ServeOne` | core/src/server.c:846-867 | What one report of `poll` makes the server do: the state function `Serve` |
| `ServerProcess.Server.PollRound` | core/src/server.c:815-869 | One pass of the poll loop: the state function `PollPass` |
| `ServerProcess.RunServer` | core/src/server.c:789-877 | A server with arrays of clients and linked queues, run through any passes, ends in the state the functions compute, which is a reachable one |
| `ClientSlot.Client.Link` | core/src/server.c:199-205 | Links a node behind the tail and adds its length to the account |
| `ClientSlot.Client.FreeQueue` | core/src/server.c:111-121 | Unlinks the whole queue |
| `ClientSlot.Client.Take` | core/src/server.c:664-676 | Advances the head by the bytes taken; unlinks it, clears the tail when it was the last and corrects the account only when it is fully sent |
| `ClientSlot.Client.Shift` | core/src/server.c:618-621 | Moves the rest of the input buffer to its front |
| `ClientSlot.Client.Receive` | core/src/server.c:637-642 | Appends a chunk to the input buffer |
| `Protocol.ParseHeader` | core/src/protocol.c:7-23 | Accepts a header exactly when five bytes are there and the size is allowed, and reads kind and size |
| `Protocol.WriteHeader` | core/src/protocol.c:25-31 | Writes the five header bytes and nothing else |
| `Protocol.ReadString` | core/src/protocol.c:33-63 | Reads one length-prefixed string and moves the offset, behind the length even on failure |
| `Protocol.WriteString` | core/src/protocol.c:65-90 | Appends one length-prefixed string, or changes nothing but reports failure |
| `Protocol.ValidName` | core/src/protocol.c:92-112 | The scan accepts exactly the names of allowed length and characters |
| `Wire.HeaderRoundTrip` | core/src/protocol.c:7-31 | Reading the header of an encoded frame gives back its kind and size |
| `Wire.ParseOfEncoding` | core/src/protocol.c:7-31 | Parsing the encoding of any frames gives back those frames |
| `Wire.ParseReencodes` | core/src/protocol.c:7-31 | Encoding what was parsed, followed by the rest, gives back the bytes |
| `Wire.ParseResumes` | core/src/server.c:598-624 | Parsing in two pieces, with the rest carried over, is parsing at once |
| `Wire.PrefixParsesToPrefix` | tools/channelwire_client.py:63-76 | Any prefix of an encoded stream parses to a prefix of the frames |
| `Wire.UnpackInvertsPack` | tools/channelwire_client.py:46-54 | `decode_strings` inverts `string_payload` |
| `Wire.PackInvertsUnpack` | tools/channelwire_client.py:83-95 | Any payload `decode_strings` accepts re-encodes to itself |
| `Wire.ReadersAgree` | core/src/protocol.c:33-63 | The C readers accept a payload exactly when `decode_strings` does with the right number of strings, each short enough, and then both return the same |
| `Wire.WrittenStringsAreReadBack` | core/src/protocol.c:33-90 | Any list of strings that fits the buffers is written and read back unchanged |
| `ClientLibrary.StringPayload` | tools/channelwire_client.py:46-54 | The packing loop, which refuses a string over 65535 bytes |
| `ClientLibrary.DecodeStrings` | tools/channelwire_client.py:83-95 | The unpacking loop, with its errors |
| `ClientLibrary.Socket.RecvExact` | tools/channelwire_client.py:63-70 | Reads exactly the bytes asked for, in whatever pieces they come, or reports the end |
| `ClientLibrary.Socket.ReadFrame` | tools/channelwire_client.py:73-76 | Reads exactly the next frame, or reports the end |
| `ClientLibrary.Socket.ReadToEnd` | tools/cw_client.py:85-93 | Reading frames until the connection ends returns exactly the complete frames of the stream |
| `ClientLibrary.PeerReadsTheFrames` | tools/channelwire_client.py:63-76 | A `read_frame` loop on any prefix of the server's output returns a prefix of the frames sent, all of them if everything arrives |
| `ClientLibrary.SameParse` | tools/channelwire_client.py:73-76 | The library, which has no payload limit, and the server parse the same frames where the server sees no malformed header |
| `BridgeLaws.DmSavedExactly` | gateway/app/main.py:510-521 | With paired replies a delivered DM is saved once by the sender's session if that has handled the confirmation, and once by the recipient's if that handled the message while the sender's name was not counted, and by nobody else: so exactly once if and only if exactly one of the two has happened |
| `BridgeLaws.ReceiptSavedExactly` | gateway/app/main.py:510-514 | In every run, paired or not, the recipient's session has saved a DM once if it handled it while no endpoint of the sender's name was counted, and otherwise never |
| `BridgeLaws.SenderSavesOnce` | gateway/app/main.py:510-521 | With paired replies, a DM of a gateway session never renamed that is still counted after it handled the confirmation is saved exactly once, by that session, with the right target and text, whatever the recipient does |
| `BridgeLaws.RecipientSavesOnce` | gateway/app/main.py:510-514 | A DM of a client whose name was never at the gateway, and which is a direct client or a gateway session never renamed, is saved exactly once as soon as the recipient's session has handled it, by that session, and not before |
| `BridgeLaws.SavedTwiceOnlyAfterTheSenderLeft` | gateway/app/main.py:510-521 | In every run, paired or not, a DM is saved at most twice, and twice only when confirmed to the sender and handled by the recipient while the sender's name was not counted; a sender never renamed is then not counted any more |
| `BridgeLaws.RecipientDecides` | gateway/app/main.py:510-514 | The recipient's session saves a DM exactly when no endpoint of the sender's name is counted at that moment |
| `BridgeLaws.RepliesPairUp` | gateway/app/main.py:515-521 | With paired replies, `pending_dms` of a connected session whose core pump has not raised is exactly the list of DMs it will get a reply to, and every reply it handles meets its own DM at the front |
| `BridgeLaws.DeafSavesNothing` | gateway/app/main.py:547-559 | A session whose core pump has raised, the browser pump not being cancelled, saves nothing more over any continuation, whatever is still appended to its `pending_dms` |
| `BridgePairing.InStepExactly` | gateway/app/main.py:515-521 | For a connected session a step keeps `pending_dms` in step if and only if it is none of three: a DM swallowed by a target without room, an error of another command handled while a DM is pending, a DM remembered after the end that does not leave any more |
| `BridgeLaws.ChatSavedExactly` | gateway/app/main.py:506-509 | In every run, NICK included, a session saves a broadcast exactly once if it has handled it and knows its own user as the sender, and otherwise never |
| `BridgeLaws.ChatSavedPerClaimant` | gateway/app/main.py:506-509 | In every run a broadcast is saved as often as there are sessions that have handled it with their own user as its sender |
| `BridgeLaws.ChatSavedOnce` | gateway/app/main.py:506-509 | If no gateway session of the sender's user was ever renamed, a broadcast is saved exactly once when its sender's gateway session has handled its own echo, by that session, and otherwise never; a direct client's broadcast is never saved |
| `BridgeLaws.ChatSavedInOrder` | gateway/app/main.py:506-509 | What a session has saved is what it has handled under its own name; if it was never renamed that is a prefix of its broadcasts in order, and with what it has not handled yet all of them while the core keeps it connected |
| `BridgeLaws.ActiveUsersAreCounted` | gateway/app/main.py:498-559 | `active_gateway_users` holds exactly the names of the endpoints that were entered and have not reached their `finally` block, with their number |
| `BridgeLaws.AbandonedIsCountedForEver` | gateway/app/main.py:498-499 | If sending the ready frame raises, before the `try`, the name stays counted over every continuation: no session saves a DM of a direct client of that name any more |
| `BridgeHistory.HistoryShowsEachBroadcastOnce` | gateway/app/db.py:188-198 | After any run, whatever joins come in between, `channel_history` shows the last of the broadcasts that some session handled as its own, and none twice unless a gateway session was renamed |
| `BridgeInvariant.StepSane` | gateway/app/main.py:480-561 | Every step, NICK included, keeps the invariant on names, streams and tags: each event reaches a session once, in order, and says what the core recorded |
| `BridgeInvariant.StepActive` | gateway/app/main.py:555-559 | Every step keeps the count of endpoints entered and not finished right |
| `BridgeSaves.StepSaves` | gateway/app/main.py:502-522 | Every step keeps the account of which event has saved which row |
| `BridgePairing.StepPaired` | gateway/app/main.py:515-521 | Every step that meets the two assumptions keeps replies and pending DMs in step for every session whose core pump has not raised, and confirmations saving the right DM |
| `BridgeLimits.DuplicateWhenTheSenderLeaves` | gateway/app/main.py:557-559 | A run with paired replies in which a DM is saved twice |
| `BridgeLimits.LostWhenTheSenderLeaves` | gateway/app/main.py:557-559 | A run with paired replies in which a delivered DM is saved by nobody, because the sender's session ended before the confirmation |
| `BridgeLimits.ErrorLosesADm` | gateway/app/main.py:520-521 | A run in which an error of another command removes the pending DM, and the delivered DM is never saved |
| `BridgeLimits.OverflowSavesTheWrongDm` | core/src/server.c:512-516 | A run in which a DM without reply makes the next confirmation save a message nobody received |
| `BridgeLimits.NickLosesBroadcasts` | gateway/app/main.py:506 | A run in which a session renamed by NICK handles its own broadcast and nobody saves it |
| `BridgeLimits.NickSavesForAnother` | gateway/app/main.py:506 | A run in which a renamed session saves the broadcast of another user, who has taken its old name |
| `CoreBridgeRun.EveryRunIsBridged` | core/src/server.c:789-877 | Every run of the core, whichever connections come through the gateway and however much each closed one still gets, is a possible run of the bridge with the log as its broadcasts and as many deliveries as direct messages counted; its connected sessions are the registered clients, with their names and the frames queued to them, and every other session is a closed connection that has been sent the first part of what was queued on it |
| `CoreBridgeRun.PassIsBridged` | core/src/server.c:815-869 | One pass of the poll loop, from any world of the bridge that mirrors the core, books and closed connections included, and has no command outstanding, is some steps of the bridge to another |
| `CoreBridgeRun.PumpIsBridged` | gateway/app/main.py:502-522 | Between passes any session at the gateway may handle its next event, and the world goes on mirroring the core |
| `CoreBridgeRun.JointAtFirst` | core/src/server.c:789-815 | Core and bridge are together at the start: the core mirrored by a world the bridge can reach |
| `CoreBridgeRun.JointPass` | core/src/server.c:815-869 | They stay together over a pass of the core: the world reached mirrors the core after it |
| `CoreBridgeRun.JointPump` | gateway/app/main.py:502-522 | They stay together over a round of any session's core pump |
| `CoreBridgeRun.LogIsSavedPerClaimant` | gateway/app/main.py:506-509 | Over passes of the core and rounds of the gateway's pumps, every line of the core's log is saved as often as there are gateway sessions that have handled it under their own name, with the channel, sender and text it has in the log |
| `CoreBridgeRun.HistoryShowsTheLog` | gateway/app/db.py:188-198 | `channel_history` shows the last of the lines of the core's log on the channel that some session has handled as its own, none twice unless a gateway session was renamed |
| `CoreClosed.FrameMoves` | core/src/server.c:123-133 | Whatever frame is handled, but a first name, every connection stays in its slot with its serial number and what it has accepted, or is among the closed ones with at least that; log and count of direct messages change for SAY and DM only |
| `CoreClosed.SayMoves` | core/src/server.c:562-573 | A SAY adds the line of its sender to the log exactly if the sender is registered with an active channel and the text is accepted, and otherwise nothing |
| `CoreClosed.DmMoves` | core/src/server.c:481-520 | A DM is counted exactly if its sender and target are registered, it is well formed and its target's queue and the allocation have room |
| `CoreBridgeLaws.FrameIsBridged` | core/src/server.c:546-596 | Whatever frame the core handles, from whatever client, in the middle of a drain or not, the core of the bridge has steps of its own from any world that mirrors the state to one that mirrors the outcome: same names, same frames to everybody |
| `CoreBridgeLaws.MalformedIsBridged` | core/src/server.c:603-607 | The same for a chunk behind a malformed header, which consumes no command of the bridge |
| `CoreBridgeLaws.NamingIsBridged` | core/src/server.c:522-544 | The same for NICK and a repeated HELLO: the reply, and the notices to the channel or the members dropped for them |
| `CoreBridgeLaws.FirstNameIsBridged` | core/src/server.c:384-400 | A first HELLO or NICK opens a session of the bridge, or none if it is refused or the client is dropped for the answer |
| `CoreBridge.SayIsBridged` | core/src/server.c:562-573 | A SAY is one broadcast to the members it reaches, each told or dropped, or one error |
| `CoreBridge.DmIsBridged` | core/src/server.c:481-520 | A DM is a delivery, a refusal or an overflow of the bridge, each with what becomes of both ends |
| `GatewayProcess.Gateway.Enter` | gateway/app/main.py:498 | Counts one more session of the name |
| `GatewayProcess.Gateway.Leave` | gateway/app/main.py:556-559 | Counts one less, and forgets the name at zero |
| `GatewayProcess.WebSocketSession.PumpCore` | gateway/app/main.py:502-522 | One round of the core pump on `pending_dms` and the tables: the function `OnEvent` of the bridge and the store's `Apply`, and when it raises |
| `GatewayProcess.WebSocketSession.PumpBrowser` | gateway/app/main.py:524-541 | One round of the browser pump: the frame sent, the DM remembered, the membership saved, or an error and no change; which commands pass, and as what, is `GatewayLaws.CommandPasses` |
| `GatewayRun.RunGateway` | gateway/app/main.py:483-559 | A gateway process fed with frames that look like the events of any possible run of the bridge and messages that mean its commands ends, unless a unit of work raises, with the count of users, the pending DMs and the saved messages of that run; it raises only on a message to oneself by a user not in the table |
| `GatewayRun.Process.Perform` | gateway/app/main.py:501-541 | One step of the run on the process: the function `Step` on what the gateway holds, and the unit of work of that step on the tables |
| `GatewayRun.Process.Receive` | gateway/app/main.py:502-522 | A round of the core pump keeps every endpoint as the world says |
| `GatewayRun.Process.Accept` | gateway/app/main.py:524-541 | The same for a round of the browser pump, after the end as well |
| `GatewayProcess.DmReachesTheCore` | gateway/app/main.py:239-246 | A DM that passes the gateway's checks reaches the core with its target as typed, and the core takes it exactly when the text has at most 1024 bytes and does not begin with a NUL |
| `GatewayProcess.SayReachesTheCore` | gateway/app/main.py:229-233 | The core takes the text of a SAY that passes the gateway exactly when it has at most 1024 bytes and does not begin with a NUL; which ones pass is `GatewayLaws.CommandPasses` |
| `GatewayProcess.ChannelReachesTheCore` | gateway/app/main.py:224-228 | The core takes a channel name that passes the gateway exactly when it is short enough and valid up to its first NUL; which ones pass is `GatewayLaws.CommandPasses` |
| `GatewayProcess.NickReachesTheCore` | gateway/app/main.py:234-238 | The same for a new name |
| `GatewayLaws.CommandPasses` | gateway/app/main.py:216-248 | A command passes if and only if it is WHO, LIST, QUIT or STATS, or its own field is there with 1 to 65535 bytes, where a DM moreover needs a well-formed target and a text that `strip` does not empty; it goes to the core under its own kind, and its payload unpacks to exactly its fields |
| `GatewayLaws.TypedSayIsBroadcast` | gateway/app/main.py:229-233 | A text of 1 to 1024 bytes not beginning with a NUL, typed by somebody on a channel, passes the gateway and is broadcast by the core to that channel |
| `GatewayLaws.TypedDmIsRelayed` | gateway/app/main.py:239-246 | A DM that passes, of at most 1024 bytes and not beginning with a NUL, to a registered name is relayed to that client under the sender's name, or drops it |
| `GatewayLaws.WhoIsShown` | gateway/app/main.py:258-260 | A browser whose client asks WHO on a channel and survives is shown exactly the users on that channel |
| `GatewayLaws.ListIsShown` | gateway/app/main.py:261-263 | One that asks LIST is shown exactly the table of channels |
| `GatewayLaws.TextsAreShown` | gateway/app/main.py:258-277 | Lists reach the browser line by line, replies and errors as they are, but for two errors about DMs that get one friendlier text; the pump takes exactly the confirmation of a DM and errors as such |
| `GatewayRun.CommandsAreTyped` | gateway/app/main.py:524-541 | A command of the bridge can be typed so that it passes if and only if its text and target are ones the gateway lets through: the runs of `RunGateway` include every ordinary SAY and DM |
| `GatewayProcess.FramesReadBack` | gateway/app/main.py:251-257 | The gateway reads back the strings of every CHAT and DM_RECV frame the core can write |
| `Store.RunOk` | gateway/app/db.py:132-185 | After any sequence of saves no key is doubled, each (user, channel) has at most one membership and every reference resolves |
| `Store.FailsExactlyOnNewSelf` | gateway/app/db.py:182-185 | A save fails if and only if it is a message to oneself by a user not yet in the table (autoflush is off) |
| `Store.TablesTellWhoWasThere` | gateway/app/db.py:132-185 | After any saves a user is a member of a channel if and only if it joined it or posted to it, a channel is there if and only if somebody did, and a user if and only if it did either, registered, or was sender or recipient of a message between two users |
| `Store.ChannelHistoryIsTheLog` | gateway/app/db.py:188-198 | `channel_history` is the last `limit` posts to the channel in the order of saving |
| `Store.DirectHistoryIsTheLog` | gateway/app/db.py:201-217 | `direct_history` of two users is the last `limit` messages between them in the order of saving |
| `Store.SelfHistoryIsTheLog` | gateway/app/db.py:201-217 | The same for messages to oneself, if the user was in the table each time |
| `Store.DirectHistoryIsSymmetric` | gateway/app/db.py:201-217 | Direct history does not depend on which of the two users asks |
| `Store.StatsCountTheSaves` | gateway/app/db.py:240-248 | The message counts of `stats_snapshot` after any saves are the numbers of saves of each kind that did not fail, and add up to all messages |
| `Store.Session.AddMember` | gateway/app/db.py:164-174 | Adds user, channel and membership where they are missing from the committed tables |
| `Store.Session.SaveChannel` | gateway/app/db.py:177-179 | Adds the membership and the message |
| `Store.Session.SaveDirect` | gateway/app/db.py:182-185 | Adds both users and the message |
| `Store.Session.CommitAll` | gateway/app/main.py:507-509 | All pending rows or, when a key would be doubled, none |
| `Store.Transact` | gateway/app/main.py:507-509 | One unit of work: the function `Apply` |
| `Readiness.AtMostSixRequests` | frontend/src/main.tsx:436-449 | Every run has made its attempts in order, at most six |
| `Readiness.OneTimerIsLive` | frontend/src/main.tsx:383-399 | At most one request or retry timer is live, and the ref holds it; at most one check is not cancelled |
| `Readiness.EndsInTime` | frontend/src/main.tsx:401-462 | A run still checking is within 30500 ms of its start and has a live timer due within them: it ends ready or failed by then |
| `Readiness.StaleChecksWriteNothing` | frontend/src/main.tsx:434-459 | In every run a check of an earlier run is left over only when the component is gone, can only be rejected, and then changes no view, ref, timer or request |
| `Readiness.NothingAfterUnmount` | frontend/src/main.tsx:838-841 | After the component is gone nothing is shown and nothing requested any more |
| `Readiness.EveryEventCounts` | frontend/src/main.tsx:401-462 | In every run each event does what it must: an answer makes the page ready and leaves nothing pending; a failed attempt sets exactly one timer of 2500 ms for the next, or after the sixth shows the failure and sets none; each attempt is sent with exactly one timer of 3000 ms; going away clears the timers and aborts the checks |
| `Readiness.RestartIsSafeExactlyWhenIdle` | frontend/src/main.tsx:450-458 | No check is in flight if and only if no older check, settling after a new run has started, can leave the page without any timer; started idle, a run has its timer and the invariant |
| `Readiness.RestartInFlight` | frontend/src/main.tsx:450-458 | Started with a check in flight, the settled old check clears the new check's timer, and the new run can hang for ever |
| `Readiness.StepKeeps` | frontend/src/main.tsx:383-462 | Every event keeps the invariant: one check with its timer, or one retry timer, or nothing |
| `Readiness.Component.StartReadinessCheck` | frontend/src/main.tsx:401-406 | The function `Start` in place |
| `Readiness.Component.CancelReadinessCheck` | frontend/src/main.tsx:394-399 | The function `Cancel` in place |
| `Readiness.Component.ClearReadinessTimers` | frontend/src/main.tsx:383-392 | The function `ClearTimers` in place |
| `Readiness.Component.OnFailure` | frontend/src/main.tsx:438-459 | The catch and finally blocks: the function `Rejected` in place |
| `Readiness.Component.OnSuccess` | frontend/src/main.tsx:434-459 | The end of the try block and the finally block: the function `Succeeded` in place |
| `Readiness.Component.OnTimer` | frontend/src/main.tsx:417-420 | A timer fires: the function `Fired` in place |
| `Readiness.Component.Perform` | frontend/src/main.tsx:383-462 | Each event performed on the refs in place: the function `Step` |
| `Readiness.Live` | frontend/src/main.tsx:383-462 | A component that lives through any possible events ends in the state of their run, with the invariant |
| `Reconnect.AtMostOneSocket` | frontend/src/main.tsx:583-617 | In every run at most one socket is connecting or open, and it is the one in `socketRef` |
| `Reconnect.NewSocketOnlyAlone` | frontend/src/main.tsx:583-591 | A socket is made only when none is connecting or open, reconnecting is allowed and a token is there |
| `Reconnect.NoSocketAfterSignOut` | frontend/src/main.tsx:619-632 | After `logout`, timers and late events make no socket until the next `startSession` |
| `Reconnect.EveryEventCounts` | frontend/src/main.tsx:572-652 | In every run each event does what it must to every socket, timer and the session: a socket is made exactly when connecting or a timer finds none connecting or open in a session that may connect; signing out, going away and an error close the socket that is connecting or open; no other socket changes |
| `Reconnect.NoSocketAfterUnmount` | frontend/src/main.tsx:838-847 | After the component is gone no socket is made or left open, whatever timers and late events come |
| `Reconnect.DelaysAreBounded` | frontend/src/main.tsx:612-614 | Every reconnect delay is between 1000 and 10000 ms |
| `Reconnect.DelaysDouble` | frontend/src/main.tsx:612 | The delay doubles with every close since the last open until it is 10000 ms |
| `Reconnect.PauseFollowsTheStreak` | frontend/src/main.tsx:601-615 | A lost connection of a signed-in user sets exactly one timer, its delay given by the losses in a row since the last open or sign-in; otherwise none is set |
| `Reconnect.NeverGivesUp` | frontend/src/main.tsx:601-615 | A signed-in session that has once connected always has a socket whose close is still to come, or a live timer |
| `Reconnect.SignOutClearsExactly` | frontend/src/main.tsx:624-627 | `logout` leaves no timer live if and only if every live timer is the one in `reconnectTimerRef` |
| `Reconnect.ATimerOutlivesSignOut` | frontend/src/main.tsx:624-627 | A run, with a second sign-in before the late close of an earlier socket, in which `logout` leaves an older reconnect timer live |
| `Reconnect.StepKeeps` | frontend/src/main.tsx:572-652 | Every event keeps the invariant on sockets, delays and progress |
| `Reconnect.Component.ConnectNow` | frontend/src/main.tsx:583-591 | The function `Connect` in place |
| `Reconnect.Component.OnClose` | frontend/src/main.tsx:601-615 | The function `Closed` in place |
| `Reconnect.Component.Logout` | frontend/src/main.tsx:619-632 | The function `SignOut` in place |
| `Reconnect.Component.StartSession` | frontend/src/main.tsx:572-576 | The function `SignIn` in place |
| `Reconnect.Component.CleanUp` | frontend/src/main.tsx:840-846 | The clean-up of the effect: the function `Unmounted` in place |
| `Reconnect.Component.Perform` | frontend/src/main.tsx:572-652 | Each event performed on the refs in place: the function `Step` |
| `Reconnect.Live` | frontend/src/main.tsx:572-652 | A component that lives through any possible events ends in the state of their run, with the invariant |

## Left out

- A save that raises inside a pump: the bridge goes on as if it had worked; `GatewayRun.RunGateway` follows a run up to the first such save, and `Store.FailsExactlyOnNewSelf` says when there is one.
- `CoreBridgeRun.PassIsBridged` lets every command of the bridge be sent just before the core handles it and the gateway's pumps act between passes; commands waiting over several passes, and those of an endpoint that has ended meanwhile, are steps of the bridge that the theorem does not match with passes of the core.
- `join_channel` with `make_active` zero: no caller passes it.
- `OutFrame.data` is a sequence fixed when the node is made, not a byte array; the source never changes it either.
- `malloc`-level memory: freeing a node is unlinking it; the null-pointer result of `calloc` is an argument.
- The answers of `accept`, `recv`, `send` and `poll` are arguments, one list per call; descriptors from `accept` are assumed not to be open already, and a connection that is read is reported readable with the list of its answers.
- Counters and lengths are unbounded; `max_queue_bytes` is assumed to leave room for one more frame in `size_t`.
- Socket set-up, signals, logging, environment and argument parsing, and the shutdown loop after the poll loop.
- UTF-8 and JSON: texts are byte sequences and browser commands are already parsed; `str.strip` and `str.splitlines` are modelled for ASCII only.
- The gateway's own error texts for commands it refuses, and the `system` and `core_stats` events beyond passing them on.
- REST endpoints, tokens, password hashing, CORS, `create_user`, `list_users`, `list_channels` and `channel_members`.
- SQL dialects, migrations and transactions beyond one atomic commit; `autoflush=False` is modelled, because look-ups see committed rows only.
- Timer accuracy: the bound of the readiness check is for timers that fire when due and aborts that settle a pending read at once; reconnect timers may fire at any time.
- React rendering, message list, slash commands, sparklines and the restoring of a stored session beyond its initial refs.
