# derp-rs in Dafny

A model of derp-rs, a DERP relay server, and proofs about it: the session state machine of the relay, the mesh
protocol between servers, the two token buckets, the writer's batching, the frame codec and the STUN responder.

## How it is put together

- `Types`, `BigEndian`: bytes, machine words, node keys and frames. A key, an address or a ping value is the number
  its bytes spell.
- `Codec`: frames to bytes and back, and cutting frames out of a stream. `CodecBytes`: the same octet by octet, with
  every kind and every field at its offset.
- `RelayState`: the relay as a value, with one function for each operation and `Step` over all of them. A session
  handle is an id in a store. Every `try_send` is recorded in the session's history together with whether the
  bounded queue took it. `RelayRuns` strings steps into runs from the empty relay.
- `RelayIndex`, `RelayHalves`, `RelayFrames`, `RelayNotices`, `RelayTrace`, `RelayPaths`, `RelayStays`,
  `RelayPackets`, `RelayCounts`, `RelayLimits`: what holds in every reachable state and over every run.
- `RelayForward`, `RelayEffects`, `ServeEffects`: what single operations leave behind, down to queues, route lists,
  flags and counters, and what a reader does with each frame.
- `RelayObject`: the relay as the program has it, an object whose methods update maps, queues and counters in place
  with the loops of the source. Each operation is proved to take the relay through exactly one `Step`. The object
  carries its history as a ghost, and its invariant says that the history is a run that ends where the object is, so
  what is proved of every run holds of every such object (`Keeps`). `Connections` has a session's reader and writer
  and the mesh reader, which drive it.
- `MeshNews`, `MeshNet`, `MeshPackets`, `MeshFifo`: any number of relays joined by mesh links in any topology, with frames under
  way in both directions and links that may close at either end at any time.
- `Dispatch`, `Writer`, `RelayWire`: what a session's reader does with a frame, how the writer turns its queue into
  batches of bytes, and what the client at the other end decodes.
- `RateLimit`: both token buckets, over real numbers.
- `Stun`: the attribute walk and the reply. `StunBits`: the same on the octets and bits of RFC 5389.

Clocks, the order in which a concurrent map is visited, the lateness of a timer and the CRC are parameters. Each
relay operation is one step, except in the split-step results, where the two halves of `unregister` are separate. A
handle is used from its registration to its one `unregister`, as `src/server.rs:90-121` does.

## Where the code and its documentation differ

- `docs/PROTOCOL.md:61-62` promises a receiver `PeerGone(Disconnected)` when a sender's final connection leaves. The
  code records a reverse path only when a session sees a source for the first time (`src/relay.rs:347`) and never
  clears that cache. `ReversePathExact` and `DepartureNotices` say exactly when the notice is sent;
  `SecondDepartureUntold` is a run in which it is not.
- `docs/PROTOCOL.md:57-59` says that the last active of a key's connections receives its packets. Unregistering any of
  them also moves the route, to the newest survivor (`src/relay.rs:293-295`). `RouteIsMostRecentIff` says exactly when
  the documented rule holds; `ActiveDuplicateLosesRoute` is a run in which it does not.
- If a key is registered between the two halves of the departure of its last session (`src/relay.rs:285-304`) and is
  still connected when the second half runs, the newcomer disappears from both indexes:
  `RegisterBetweenHalvesIsErased`, with `NewcomerLost` as a run. `KeptIff` says that this is the only way to lose a
  session. Without such a registration the indexes agree: `SplitAgreement`.

## Model

| member | source | states |
|---|---|---|
| Codec.Buffer.EncodeInto | src/protocol.rs:157-237 | Succeeds exactly when the packet is at most 64 KiB and the payload length fits 32 bits; then it appends the frame's wire form, otherwise the buffer is what it was and the error carries the offending length |
| Codec.KeyFrom | src/crypto.rs:13-24 | A 32-byte slice is a key exactly when some byte is not zero, and the key's bytes are that slice |
| Codec.PresentRoundTrip | src/protocol.rs:195-334 | Reading back the payload of any PeerPresent yields its normal form: IPv4 as mapped IPv6, nothing without an endpoint, extra without flags read as flags |
| Codec.DecodeEncoded | src/protocol.rs:157-365 | For every frame that fits: decoding the encoded payload yields the normal form if and only if the minimum lengths are met and the frame is no Unknown borrowing a known kind; a short box is refused by name, a borrowed kind is refused or read as that kind |
| Codec.DecodeNormalises | src/protocol.rs:239-365 | Whatever decodes, decodes to a normal-form frame of the kind read and never longer than what was read but for PeerGone's reason byte, and decoding that frame's own encoding returns it |
| Codec.NormalIsFixed | src/protocol.rs:157-237 | The normal frames are exactly those that fit, meet the minimum lengths and are left unchanged by the wire; one trip reaches the normal form |
| Codec.ReadOne | src/protocol.rs:368-381 | Reading at the start of an encoded frame yields its normal form and stops exactly at its end, whatever follows |
| Codec.StreamRoundTrip | src/protocol.rs:368-381 | Reading back any run of encoded frames yields their normal forms in order and leaves exactly the bytes after them |
| Codec.NormalStreamRoundTrip | src/protocol.rs:368-381 | Normal-form frames, unknown kinds included, survive a stream unchanged with nothing left over |
| Codec.Stream.ReadFrame | src/protocol.rs:368-381 | One `read_frame`: outcome and bytes left are those of the reading function, on short, oversized and undecodable input too |
| CodecBytes.DecodesIff | src/protocol.rs:20-365 | For each of the 16 kinds and the unknown ones, over all payloads: it decodes to a frame if and only if it spells it, with literal kinds, lengths and offsets |
| CodecBytes.PacketErrors | src/protocol.rs:263-290 | Packet frames are refused exactly when too short, over 64 KiB or with an all-zero key, and how |
| CodecBytes.EncodesIff | src/protocol.rs:157-237 | A frame encodes exactly when its packet is at most 65536 octets and its payload length fits four |
| CodecBytes.WireIs | src/protocol.rs:125-237 | Every encoded frame octet by octet: literal kind, length as a weighted sum, magic, keys in order, mapped addresses, words most significant octet first |
| CodecBytes.ReadIs | src/protocol.rs:368-381 | On every byte string and limit: what `read_frame` returns and leaves, with the length read from octets 1 to 4 |
| RateLimit.PeerGoneLimiter.Allow | src/relay.rs:102-111 | Refill, cap and charge in place are the limiter function that the bounds are about |
| RateLimit.GrantsPotential | src/relay.rs:89-112 | Over any sequence of questions, grants plus tokens left never exceed the tokens at the start plus three a second |
| RateLimit.WindowBound | src/relay.rs:89-112 | In any window of T seconds at most 3 + 3T questions are granted, and tokens stay within 0 and 3 |
| RateLimit.RetrySucceeds | src/relay.rs:102-111 | A refused question is granted when repeated a third of a second later, however often it was refused in between |
| RateLimit.GrantedIff | src/relay.rs:102-111 | A question is granted if and only if with it the grants since the start, and since each earlier question, stay within the tokens then, at most three, plus three a second |
| RateLimit.FirstThreeGranted | src/relay.rs:94-111 | A new limiter grants its first three questions |
| RateLimit.TokenBucket.Consume | src/server.rs:345-363 | The in-place refill, charge and sleep: without a rate a call completes at once, otherwise, lateness of its timer aside, at the earliest time that the bucket's calls so far allow |
| RateLimit.ConsumeStep | src/server.rs:345-363 | One call, sleeping or not: bytes admitted plus tokens left never exceed the tokens before plus rate times elapsed |
| RateLimit.AdmissionBound | src/server.rs:330-364 | Between any two completions of any run the bytes admitted are at most burst + rate × elapsed, requests larger than the burst included |
| RateLimit.ExactCompletion | src/server.rs:330-364 | With exact sleeps, back-to-back calls from a full bucket complete exactly max(0, total − burst) / rate after the start |
| RateLimit.WakesAtEarliest | src/server.rs:345-363 | After any calls, started at any time and however late their timers fired, a call asks to be woken at the earliest time at which its bytes stay within what the start of the run, the start of every call and the end of every sleep allow |
| RateLimit.IdleBucketIsFull | src/server.rs:350-358 | A call within the burst that starts burst / rate or more after the last completion completes at once |
| RateLimit.CompletionsDoNotSuffice | src/server.rs:350-358 | Counting a full bucket from completions instead of starts is not enough: a bucket and calls where it would let a call through two seconds early |
| Stun.Walk | src/stun.rs:37-57 | The attribute loop ends on every input inside the area, fails exactly when an attribute overruns it, and otherwise reports a SOFTWARE match and a closing FINGERPRINT exactly as the attribute list has them |
| Stun.Respond | src/stun.rs:27-93 | Answers every accepted packet with the reply to its transaction and nothing else, for every byte string and every checksum function |
| Stun.BuildReply | src/stun.rs:64-92 | The reply written with a zero length and patched at the end is the specified one |
| Stun.MaskOctets | src/stun.rs:74-87 | The octet loop is exclusive or with the mask |
| Stun.ReplyRoundTrip | src/stun.rs:64-92 | Reading a reply recovers transaction id, address and port, for both families |
| Stun.ScanPlaced | src/stun.rs:41-57 | Walking any padded attribute list yields its attributes at their offsets, whatever the padding holds |
| Stun.AnswersIff | src/stun.rs:27-63 | A well-formed Binding Request is answered if and only if some SOFTWARE is "tailnode" and the last attribute is a FINGERPRINT over all before it |
| StunBits.AnswersExactly | src/stun.rs:12-63 | With literal types, cookie, text and mask: a well-formed Binding Request is answered if and only if some attribute 0x8022 reads "tailnode" and the last is a four-octet 0x8028 whose bits are those of the checksum, inverted exactly where 0x5354554e has a 1 |
| StunBits.RefusesOthers | src/stun.rs:27-34 | Nothing without the request type, the cookie or the declared length is answered |
| StunBits.ReplyIs | src/stun.rs:64-92 | The reply octet by octet, with port and address bits inverted exactly where cookie and transaction id have a 1 |
| RelayIndex.RefsStep | src/relay.rs:138-484 | Every operation keeps all handles in the indexes pointing at sessions of the right key, ids fresh, and routes on existing channels |
| RelayIndex.HandlesStep | src/relay.rs:188-484 | Only registering adds a handle, under the next id, and no operation changes what a handle was registered with |
| RelayIndex.LiveRegister | src/relay.rs:188-244 | Registering makes exactly one more session live |
| RelayIndex.LiveUnregister | src/relay.rs:278-324 | Unregistering ends exactly that session's life |
| RelayIndex.SplitPreserves | src/relay.rs:284-305 | With `unregister` in two steps, every other operation and either half keeps the indexes in agreement for all keys that are not half gone |
| RelayIndex.SplitAgreement | src/relay.rs:215-240 | In every interleaving without a same-key register between the halves: agreement for every other key, and a half-gone key has an empty set with `active` naming the departing handle |
| RelayHalves.LiveStep | src/relay.rs:284-305 | In every interleaving: which sessions have their place in the indexes after each step, either half included |
| RelayHalves.KeptIff | src/relay.rs:284-305 | In every interleaving: all registered and not unregistered sessions have kept their place if and only if no second half ran while a session of its key was live |
| RelayHalves.RegisterBetweenHalvesIsErased | src/relay.rs:215-305 | Whatever ran in between, a session live when the second half of its key's departure runs was registered between the halves, is in neither index afterwards and was never unregistered |
| RelayHalves.NewcomerLost | src/relay.rs:215-305 | Such a run exists for every key and queue depth |
| RelayRuns.SoundStep | src/relay.rs:188-484 | Every operation keeps the indexes in agreement |
| RelayRuns.IndexAgreement | src/relay.rs:119-131 | In every reachable state `active` and `peers` have the same keys, every set is non-empty with increasing ids below the next, and `active` names what `PeerSet::active` picks |
| RelayRuns.IdsAreUnique | src/relay.rs:197-213 | No id is in two session sets or twice in one |
| RelayFrames.BoxStep | src/relay.rs:188-484 | Each operation offers each session exactly the frames listed for it, in order, and touches no other queue |
| RelayFrames.QueuesAreFifo | src/relay.rs:61-69 | In every reachable state what a queue took in is what the writer took out followed by what waits, within the bound |
| RelayNotices.PeerGoneNamesAbsent | src/relay.rs:302-362 | No PeerGone, of either reason and from any of its three emitters, names a key present in `peers` or `active` |
| RelayNotices.PeerGoneInRun | src/relay.rs:278-362 | The same for every frame ever offered in any run, at the step that offered it |
| RelayNotices.HealthAgreement | src/relay.rs:224-240 | In every reachable state a live session is flagged duplicate, and its latest Health frame is a complaint, if and only if its key has more than one session |
| RelayNotices.HealthReceived | src/relay.rs:288-300 | What the client has been and will be sent ends in a complaint if and only if that is so, when no Health frame was dropped |
| RelayNotices.EarlyReturnIsSound | src/relay.rs:246-257 | In every reachable state returning early for a non-duplicate equals updating anyway |
| RelayTrace.RouteIsFold | src/relay.rs:224-257 | For every run and key, session set and route equal a fold over the trace: register and activity pick that session, unregister picks the newest survivor |
| RelayTrace.PacketsFollowFold | src/relay.rs:332-362 | A packet is offered to the session the trace selects, and forwarded or dropped as unreachable only when the trace selects none |
| RelayTrace.RouteIsMostRecentIff | src/relay.rs:285-300 | For every run and connected key: the route is the live session last registered or active if and only if no session of the key was unregistered since, or the newest survivor is that session |
| RelayTrace.ActiveDuplicateLosesRoute | src/relay.rs:293-295 | For every key and queue depth there is a run in which the route is not the session that was active last |
| RelayPaths.PathsStep | src/relay.rs:342-349 | A reverse path appears by first contact only and disappears when either end leaves only |
| RelayPaths.ReversePathExact | src/relay.rs:302-322 | b is recorded for a if and only if a session of b first heard from a during b's current stay and since a last left; and then b is connected |
| RelayPaths.DepartureNotices | src/relay.rs:302-318 | When a's last session leaves, the frames offered to each session are exactly one notice if it watches and one if it is the route of another key that has heard from a |
| RelayPaths.SeenOrLeft | src/relay.rs:347-349 | Every source in a live session's cache has its reverse path recorded or has left since its first contact with that very session |
| RelayStays.OneStay | src/relay.rs:342-349 | A stay in which a is heard by a route that had it cached but not recorded ends without a notice to that route |
| RelayStays.SecondDepartureUntold | src/relay.rs:347-349 | For any two keys, packet and queue depth there is a run in which the second departure of a heard sender is not announced |
| RelayPackets.DeliveredInOrder | src/relay.rs:332-352 | The packets a session's client was and will be sent are exactly those routed to it, each once, in routing order |
| RelayPackets.SourceIntegrity | src/server.rs:145-151 | The j-th RecvPacket sent or queued to a session of k is the j-th packet handed to it, by a step that delivered it there for a session holding the source's key or for a mesh peer; no step accounts for two |
| RelayCounts.BooksBalance | src/relay.rs:241-362 | In every reachable state received = sent + dropped + forwarded out, and both gauges equal the live and the live preferred sessions, so neither underflows |
| RelayLimits.LimitersOk | src/relay.rs:89-112 | In every run with a forward clock every session's limiter holds 0 to 3 tokens |
| RelayLimits.NotHereRate | src/relay.rs:353-358 | In any window of T seconds of any run a session is offered at most 3 + 3T PeerGone(NotHere) frames |
| RelayLimits.AnsweredIff | src/relay.rs:76-117 | In every run, a step answers PeerGone(NotHere) to a session if and only if it drops a disco packet of that session and the notices since its registration and since each of its losses stay within 3 + 3 a second |
| RelayLimits.FirstThreeAnswered | src/relay.rs:94-117 | The first three disco packets that a session loses are answered, with the key that was not here |
| RelayForward.DeliversExactly | src/relay.rs:340-349 | To a connected key with room: queue, cache, reverse path and every counter afterwards |
| RelayForward.RefusesExactly | src/relay.rs:350-352 | To a connected key without room: only the drop is recorded, nothing is forwarded or answered |
| RelayForward.ForwardsExactly | src/relay.rs:353-382 | To an absent key: the packet goes to the end of the queue of the first listed route with room, to no other |
| RelayForward.DropsExactly | src/relay.rs:355-361 | To an absent key, forwarded already or without any room: dropped, and answered at most once to its sender |
| RelayForward.ForwardedInRun | src/relay.rs:353-382 | Over runs: a client's packet to a key without session is put on the first route with room, and dropped if and only if none has room |
| RelayForward.AddsAtTheEnd | src/relay.rs:384-389 | A new connection goes to the end of a key's route list, unless it is listed |
| RelayForward.RemovalKeepsOrder | src/relay.rs:391-400 | Removing a connection keeps the other routes in their order |
| RelayEffects.RegisterOffers | src/relay.rs:224-244 | The frames that registering offers each session, with the newcomer's endpoint and flag bits |
| RelayEffects.WatchOffers | src/relay.rs:414-434 | A watcher is offered, for the j-th key visited, endpoint and flag bits of the session that receives its packets |
| RelayEffects.RestartOffers | src/relay.rs:471-483 | Every live session is offered the announcement with its two delays in order, nobody else |
| RelayEffects.ComplaintIs | src/relay.rs:233-235 | The text of the duplicate complaint |
| RelayEffects.ClosedIff | src/relay.rs:280-448 | In every run a session is closed if and only if it was unregistered or a mesh session closed its key while it was live |
| RelayEffects.HomeMovesCount | src/relay.rs:259-276 | In every run the home-move counters count the sessions that said the opposite of what they had said before |
| RelayObject.Relay.constructor | src/relay.rs:159-171 | A new relay is empty, hands out ids from 1, and bounds its queues by the requested depth, or by 1 for depth 0 |
| RelayObject.Relay.Keeps | src/relay.rs:138-150 | Of every relay object, after any operations: the indexes agree, the books balance, duplicates are told, queues are first in, first out |
| RelayObject.Relay.TrySend | src/relay.rs:61-69 | The frame is queued exactly when the receiver lives and the queue has room; nothing else changes |
| RelayObject.Relay.Register | src/relay.rs:188-244 | Both indexes, the duplicate-warning loop, the gauge and the broadcast together are one register step, and the relay stays sound |
| RelayObject.Relay.NoteActivity | src/relay.rs:246-257 | One activity step |
| RelayObject.Relay.NotePreferred | src/relay.rs:259-276 | One preference step with its gauge and home-move counters |
| RelayObject.Relay.Detach | src/relay.rs:279-301 | The half of `unregister` under the set's lock, and whether it leaves the key without a session |
| RelayObject.Relay.Erase | src/relay.rs:302-322 | The other half: index entries, broadcast, reverse-path notices and the sweep of all reverse paths, with their three loops |
| RelayObject.Relay.Unregister | src/relay.rs:278-324 | Both halves and the gauge are one unregister step |
| RelayObject.Relay.BroadcastPresence | src/relay.rs:450-469 | Every watcher but the peer itself is sent the frame once, in any order of visiting them |
| RelayObject.Relay.ForwardToMesh | src/relay.rs:364-382 | By index: the packet goes to the end of the queue of the least route whose connection lives and has room, to no other, and to none exactly when all are full or closed |
| RelayObject.Relay.SendPeerNotHere | src/relay.rs:76-86 | Only a disco packet asks the limiter, and only a granted one is answered |
| RelayObject.Relay.Route | src/relay.rs:332-362 | Delivery, reverse path, mesh forwarding, drop and counters are one routing step; to an absent key it is forwarded on the first route with room and dropped if and only if there is none |
| RelayObject.Relay.AddMeshRoute | src/relay.rs:384-389 | One step; a connection is never listed twice for a key |
| RelayObject.Relay.RemoveMeshRoute | src/relay.rs:391-400 | The connection's route goes, and the list with it when it empties |
| RelayObject.Relay.RemoveMesh | src/relay.rs:402-412 | Collecting the keys and removing one by one removes the connection from all lists at once |
| RelayObject.Relay.Watch | src/relay.rs:414-434 | Refused without mesh rights; otherwise the watcher is sent one PeerPresent per key in the order visited, which lists every key once |
| RelayObject.Relay.ClosePeer | src/relay.rs:436-448 | Closes all sessions of the key and no other; true exactly for a mesh session and a connected key |
| RelayObject.Relay.BroadcastRestart | src/relay.rs:471-483 | Every live session is sent the announcement once, nobody else |
| RelayObject.Relay.AnswerPing | src/server.rs:165-167 | One step that offers the ping's sender its pong |
| RelayObject.Relay.Dequeue | src/server.rs:198-199 | Taking frames out of a session's queue is one step, and they are its first frames |
| RelayObject.Relay.OfferChannel | src/mesh.rs:129-131 | One step; the answer is queued exactly when the connection has room |
| RelayObject.Relay.ClientCount | src/relay.rs:172-177 | The sum over the session sets is the number of live sessions and what the gauge shows |
| Dispatch.RoutesAreAuthorised | src/server.rs:145-156 | A packet is routed in a source's name if and only if it came as SendPacket of a session with that key or as ForwardPacket of a mesh session |
| ServeEffects.HangsUpIff | src/server.rs:145-176 | The frames that end a connection, by name: mesh frames without mesh rights and frames only a server sends |
| ServeEffects.AnswerEffect | src/server.rs:144-176 | Per frame: a ping offers exactly its pong, a preference sets flag and counters, watching makes a watcher, closing closes the key's live sessions, packets are routed in the right name, all else changes nothing beyond activity |
| Dispatch.ClientRateBound | src/server.rs:134-143 | Between any two admissions a client's packet bytes plus 64 for every frame stay within burst + rate × elapsed |
| Connections.ServeFrame | src/server.rs:135-177 | One turn of the reader: a session without mesh rights is charged the frame's cost and waits for it, then comes activity and the effect of the frame, spelled out frame by frame; it stops exactly on the named frames, and decoded frames keep the history one fed off the wire |
| Connections.WriteQueued | src/server.rs:198-202 | One turn of the writer takes the first frame and the batch that fits out of the session's queue, never fails in a relay fed by decoded frames, and has written exactly what it took |
| Connections.ClientHas | src/server.rs:180-249 | The same end-to-end result for a relay object and the writer object of a session: all bytes written decode, and their packets are those routed to the session in order, up to those queued |
| Connections.FollowNews | src/mesh.rs:122-138 | The keys routed over a mesh connection are those its presence frames announce, and other connections' routes stay |
| Connections.RunMesh | src/mesh.rs:122-143 | When a mesh connection ends, after whatever it heard, none of its routes is left and no other connection's routes have changed |
| MeshNews.NewsStep | src/relay.rs:414-469 | For every operation: following the frames it offers a watcher leads from the keys connected before to the keys connected after |
| MeshNews.ClosedRoutes | src/relay.rs:402-412 | Removing a connection leaves it no route, leaves the others theirs, and leaves no empty list and no connection twice |
| MeshNet.ReaderFollows | src/mesh.rs:124-134 | The mesh reader follows each frame exactly, and changes no other connection's routes |
| MeshNet.NetInvariant | src/mesh.rs:110-143 | In every reachable state of every network the servers are sound, every link's session serves it and its news are on track |
| MeshNet.MeshConvergence | src/relay.rs:384-434 | On every live link that lost no news to a full queue, the dialling server's routes followed by the frames under way are exactly the other's connected keys; a link closed there has no route, and no list is empty or holds a connection twice |
| MeshPackets.HoldingStep | src/relay.rs:332-382 | A routed packet lands in exactly one place of one server, and an already forwarded one never on a mesh link |
| MeshPackets.PacketsConserved | src/relay.rs:332-382 | In every reachable state of every topology, cycles included, the packets sent are exactly those handed to sessions, dropped, on mesh links or lost with one, and those ever forwarded are among those sent |
| MeshPackets.SentOnceIsInOnePlace | src/server.rs:145-151 | A packet sent once is in exactly one place once and was forwarded at most once |
| MeshFifo.NothingOvertakes | src/mesh.rs:111-121 | In every reachable state of every network, what is on its way over a live link stays in order, loses only the frame that is read and gains only at its end |
| MeshFifo.LinkPing | src/mesh.rs:129-131 | A ping over a mesh link is answered with its pong exactly when there is room |
| Writer.TakenLimits | src/server.rs:233-241 | A batch stops short of 63 further frames and of the queue's end only when it is full, and it was not full before its last frame |
| Writer.SessionWriter.FillBatch | src/server.rs:231-241 | The batch is the encoding of the first frame and a prefix of the queue, in order, and just those are taken |
| Writer.SessionWriter.WriteBatch | src/server.rs:221-249 | What has been written stays the in-order encoding of the frames taken from the queue with keepalives between; an unencodable frame fails the call before anything is written |
| Writer.SessionWriter.WriteControl | src/server.rs:251-267 | A keepalive never fails to encode and adds itself alone |
| Writer.BatchBound | src/server.rs:228-242 | A batch of queued frames holds 1 to 64 of them and at most 65535 bytes plus one maximal RecvPacket |
| RelayWire.ArrivedFits | src/protocol.rs:263-290 | Every packet that reaches routing off the wire is at most 64 KiB and was authorised |
| RelayWire.QueuesShip | src/relay.rs:332-352 | In every run fed by decoded frames everything ever queued to a session can be encoded and is no longer than a full RecvPacket |
| RelayWire.ClientReceives | src/server.rs:180-249 | End to end over any run fed by decoded frames, with keepalives anywhere: the bytes written batch by batch for a session decode frame by frame with nothing left over, and the packets in them are those routed to it, in order, up to those still queued |
| RelayWire.BatchesAreBounded | src/server.rs:228-242 | Every batch of such a run encodes, holds at most 64 frames and stays within 65535 bytes plus one maximal frame |

## Left out

- HTTP, WebSocket and TLS front ends, listeners, signals, configuration, metrics rendering, benchmarks and packaging.
- NaCl boxes, key files, JSON ClientInfo and ServerInfo, the admission call and dialling a mesh peer: their outcomes are inputs.
- Keepalive and shrink timers, write timeouts and failing sockets: a keepalive may come between any two batches.
- The counters for bytes, queue drops, unknown frames and STUN requests; the 64-bit wrap-around of counters and ids.
- Memory ordering of atomics and the shard locks of the concurrent maps, but for the two halves of `unregister`.
- Flow label and scope id of an IPv6 socket address, which the frames do not carry.
- RelayObject.Relay.Register: session handles are values in a store under their ids, not shared objects, so aliasing of a handle is not modelled.
- RateLimit.AdmissionBound: real numbers instead of 64-bit floats; the bounds are exact where the program rounds.
- MeshNet.MeshConvergence: mesh peers are servers of the model; a foreign mesh peer that injects ForwardPacket frames is not in the network model, only in the single-server results.
- Connections.ServeFrame: the relay is taken as it is when the reader's sleep ends; what other connections do meanwhile are steps of their own.
