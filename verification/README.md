# Rovy: a verified model of the overlay network

Rovy is a source-routed overlay network. Each packet carries a label of slot numbers; every forwarder on the way
replaces the byte it was reached by with its own slot for the previous hop, so that the label also becomes the way
back. Payloads are sealed twice, once for the far end and once for each link, with session keys from a Noise IKpsk2
handshake. This project models those parts in Dafny 4.11 and proves what their composition promises.
`dafny verify dfyconfig.toml` checks all of it.

| file | what it models |
|---|---|
| `Forwarder.dfy` | slot tables and the rewriting of one label |
| `Network.dfy` | forwarders joined into a network: journeys, all interleavings of joins, attaches, sends and hops, the reverse route |
| `Kdf.dfy`, `Crypto.dfy`, `Handshake.dfy` | key derivation through aliased buffers, symbolic cryptography, the handshake and sealed messages |
| `Acceptance.dfy` | which hellos and responses are accepted |
| `Noise.dfy` | the two handshake messages against the pattern IKpsk2 of the Noise Protocol Framework |
| `Nonces.dfy` | every box that the nodes of a network make, and the keys and nonces of all of them |
| `Sealers.dfy` | goroutines that seal with one handshake, step by step |
| `Sessions.dfy` | the session table, stages, callbacks, pairing of two nodes |
| `Receivers.dfy` | the receiving goroutines of a node, step by step, with sessions behind pointers |
| `Honest.dfy` | the sessions of a whole network |
| `Layout.dfy` | the 1452-byte buffer that holds both layers and is sealed and opened in place |
| `EndToEnd.dfy` | a payload from one node's Send to another node's handler, through all of the above |
| `Arrivals.dfy` | what arrives at all, in any network, over any tables and sessions |
| `Overlay.dfy` | the overlay as it grows: sessions, slots and routes of all nodes together |
| `Scenarios.dfy` | runs of the overlay that show what can happen |
| `Fcnet.dfy`, `Devices.dfy` | IPv6 packets from one node's TUN device to another's, for one snapshot and over all runs of the overlay |
| `Icmp.dfy`, `Traceroute.dfy` | the ICMPv6 checksum, pings, time-exceeded packets |
| `RingBuffer.dfy` | the drop-oldest queue as interleaved steps |
| `Routing.dfy`, `PeerIds.dfy`, `Bytes.dfy` | the routing table, PeerIDs as words, byte strings |

## How to read the model

- Operations that the source performs by updating an object are methods of a class (`Forwarder`, `Handshake`,
  `SessionManager`, `Channel`, `Routing`) or methods on an array; each is proved equal to a function of the old state,
  and the theorems are about those functions.
- Cryptography in the handshake is symbolic: hash, HMAC and sealing are free constructors of a term, a shared secret is
  the unordered pair of its two scalars. The buffer layer instead takes any cipher with a 16-byte tag whose opening
  undoes its sealing (`Layout.Correct`); `Layout.TagOnlyCorrect` shows that this can be met.
- Random numbers, clocks, ephemeral keys and the order of a map iteration are parameters, so the theorems hold for
  every choice of them.
- Links are not reliable: in `Network` a packet in flight is never removed, so every run also covers loss, duplication
  and reordering.
- Where the source leaves an operation unlocked and goroutines share its state, the operation is a sequence of steps
  and the theorems are about every interleaving (`Sealers`, `Receivers`, `RingBuffer`). `Sessions` has the same
  operations as whole steps; `Receivers.SerialData` and `Receivers.SerialResponse` connect the two.
- In `Honest` and `Overlay` responses and data come from nodes that run the protocol, hellos from anywhere, and links
  lose, repeat, reorder and misdeliver everything. A new session's index is free only in its own node's table, as
  Insert sees to it, and a node may call itself. The theorems of `Overlay` are about runs in which no accepted response
  lands on a session that already has its keys (`Overlay.LandsFreely`): a node can check this in its own table, the
  source has a TODO for it (node/session/manager.go:15), and `Scenarios.LandingReachable` shows what happens without.
- A `Pick` is the session that Find returned for a peer. Theorems with `Found` hold for every session that Find may
  return; `Linked` means that the peer holds its other end, `Adjacent` that there is an address for it as well.
- Fields named as history (`id`, `origin`, `born`, `connected`, `path`, `route`, `put`, `received`, `dropped` of a ring)
  are read by no operation.

## Where code and comments differ, and what turned out not to hold

- The comment of the forwarder draws the label as length, position, route. The code has the position first; the model
  follows the code.
- SendPacket admits routes of 14 hops, but the last hop of such a route reads a byte past its 16-byte header. A route
  with slots both ways is delivered exactly when it has at most 13 hops (`Network.TravelTrail`). Pings avoid that read
  and go 14 hops.
- A 0 in a route delivers the packet early, and the reverse of its label then need not lead anywhere
  (`Network.SelfSlotBreaksReverse`). A receiver can tell: the packet went all the way exactly when no label byte is 0
  (`Network.CompleteIffNoSelfSlot`).
- slots and bypeer are not always inverse: attaching an attached peer breaks it, and so does detaching the zero PeerID
  while a free slot, which carries it too, lies below its own. They are inverse throughout a run exactly when neither
  happens (`Forwarder.InverseOverRuns`).
- Swap overwrites a session that the initiator already holds under the responder's index; the number of sessions is
  kept exactly when there was none (`Sessions.SwapConserves`).
- The messages of the handshake are those of Noise_IKpsk2 with a payload more: it is sealed under the key of the box
  before it, with a nonce of its own choice instead of the next one (`Noise.HelloIsFirst`). No key and nonce are used
  twice for all that (`Nonces.OneBoxPerNonce`).
- Calls one after the other repeat no nonce up to 2^64 messages, but MakeMessage takes no lock, and the lower and the
  upper send routine can share a handshake: two goroutines can seal their first two messages with one nonce
  (`Sealers.TwoSealersRepeat`). Nonces are distinct exactly when one goroutine seals (`Sealers.DistinctIffOneSealer`).
- HandleData reads and writes the stage without a lock, and two receive routines call it: connectedCallback can fire
  twice for a session that answered a hello, and, with the hello routine, three times for one that made a call
  (`Receivers.FiresAtMost`, `Receivers.ResponderFires`, `Receivers.InitiatorFires`, with two routines), and the peer
  then has two slots (`Scenarios.TwiceAttached`).
- A response that lands on a session with keys replaces it, and the node at its other end is left with a connected
  session that nobody opens (`Sessions.LandingBreaksPair`; a run is `Scenarios.LandingReachable`). A landing on a paired
  session breaks the pair exactly when the response is another node's (`Honest.LandingBreaksIff`). A node that calls
  itself always lands so (`Honest.SelfLanding`).
- A session whose response was lost, or that a repeated hello made, has no other end. Find may return it, and data
  sealed in it does not open (`Scenarios.OrphanReachable` for a run, `Honest.OpensIffPaired` for the condition). At
  stage 3 it does (`Overlay.FoundSessionOpensIff`).
- A session made over the upper layer has no address, and the transport drops what is sent over it to a neighbour. Find
  does not tell such a session from the neighbours' own, so that two neighbours who also shake hands over the upper
  layer can lose lower packets (`Scenarios.ShadowReachable`). `EndToEnd.DeliversIff` is the exact condition.
- A node that learned a longer route to a neighbour before the link to it does not answer pings over that link any
  more, whatever it learns later (`Traceroute.AwayForGood`, `Scenarios.AwayReachable`). Its answer follows the slots of
  the first route, so that it may still come home over another neighbour (`Scenarios.DetourReachable`).
- Two producers of one ring buffer can lose a count of dropped packets (`RingBuffer.CountExactIff`).
- The 32-bit checksum sum can overflow exactly from 131075 bytes on (`Icmp.OverflowIff`).

## Model

| member | source | states |
|---|---|---|
| `Forwarder.FirstNull` | node/forwarder/forwarder.go:133-139 | the scan finds the lowest free slot, and none is free below it |
| `Forwarder.FirstOf` | node/forwarder/forwarder.go:147-153 | the scan finds the lowest slot that carries the peer |
| `Forwarder.AttachKeeps` | node/forwarder/forwarder.go:129-141 | Attach leaves every occupied slot as it was and keeps bypeer correct and complete |
| `Forwarder.IndexedOverRuns` | node/forwarder/forwarder.go:129-155 | after any sequence of Attach and Detach, bypeer[p] is a slot that belongs to p |
| `Forwarder.InverseOverRuns` | node/forwarder/forwarder.go:129-155 | over any run of Attach and Detach the two maps are inverse at every state if and only if every call meets its guard |
| `Forwarder.AttachInverseIff` | node/forwarder/forwarder.go:129-141 | Attach keeps slots and bypeer inverse if and only if the peer was not attached or no slot was free |
| `Forwarder.DetachInverseIff` | node/forwarder/forwarder.go:143-155 | Detach keeps them inverse if and only if it does not detach the zero PeerID while a free slot lies below its own |
| `Forwarder.DetachEmptyPeerLeavesSlot` | node/forwarder/forwarder.go:143-155 | four calls that miss the guard, after which the zero PeerID has a slot and no look-up |
| `Forwarder.Forwarder.constructor` | node/forwarder/forwarder.go:106-116 | all 256 slots are free |
| `Forwarder.HandleActs` | node/forwarder/forwarder.go:158-192 | each outcome of HandlePacket if and only if its condition on length, position and previous hop holds, and exactly which two bytes of the label are written |
| `Forwarder.OriginateActs` | node/forwarder/forwarder.go:195-216 | a route is refused exactly if it is empty or longer than 14 hops, and otherwise goes to the sender's own slot for the first hop with its label unread |
| `Forwarder.Forwarder.Attach` | node/forwarder/forwarder.go:129-141 | the new tables; the slot returned is the lowest free one, none exactly when all are taken |
| `Forwarder.Forwarder.Detach` | node/forwarder/forwarder.go:143-155 | the new tables; success exactly when some slot carries the peer |
| `Forwarder.Forwarder.HandlePacket` | node/forwarder/forwarder.go:158-192 | verdict and rewritten label equal the pure description; the buffer outside the label, and the label of a packet not handed on, are unchanged |
| `Network.HopsBounded` | node/forwarder/forwarder.go:158-192 | with any tables and any header a packet is forwarded finitely often, at most length minus position nodes |
| `Network.TrailReverses` | node/forwarder/forwarder.go:27-35 | slots both ways along a path are slots both ways along the reversed path |
| `Network.PrevSlotLeadsBack` | node/forwarder/forwarder.go:178-182 | the byte a node writes leads back to the node the packet came from |
| `Network.BackLabelLeadsBack` | node/forwarder/forwarder.go:178-182 | all bytes written along a path form a way back along it |
| `Network.MidHeaderSteps` | node/forwarder/forwarder.go:161-187 | one rewriting step turns k slots back and the rest of the route into k+1 slots back and the rest |
| `Network.HandleOnTrail` | node/forwarder/forwarder.go:158-192 | what every node on a path does with the packet: forward, deliver, or fault as the 14th hop |
| `Network.TravelTrail` | node/forwarder/forwarder.go:158-216 | a packet visits exactly the nodes of its path and is delivered with the label of slots back up to 13 hops, and faults with 14 |
| `Network.AttachSound` | node/forwarder/forwarder.go:129-141 | an Attach anywhere keeps the network well formed and every slot in use |
| `Network.GrowsKeepsFlights` | node/forwarder/forwarder.go:129-141 | later Attach steps never invalidate the label of a packet in flight or delivered |
| `Network.HopLabel` | node/forwarder/forwarder.go:176-187 | a hop extends the way back by one slot and leaves the rest of the route untouched |
| `Network.StepSound` | node/forwarder/forwarder.go:129-216 | every join, attach, send and hop keeps the label invariant of all packets |
| `Network.RunsSound` | node/forwarder/forwarder.go:3-35 | at every state of every run each label is slots back to the originator followed by the untouched rest of the route |
| `Network.PrefixReturns` | node/forwarder/forwarder.go:3-6 | the slots collected by any packet take a new packet back over the same nodes, after any further steps |
| `Network.ReverseRoute` | node/recv.go:77-83 | the reverse of a delivered label leads back over the same nodes to the sender at any later time; with one slot per peer, reversing again restores the route bytes |
| `Network.RouteRestored` | route.go:49-55 | with one slot per peer the label of the answer, reversed, is the first route |
| `Network.EveryHopHoldsTheWayBack` | node/forwarder/forwarder.go:3-6 | not only at the end: at every hop the part of the label already written leads back to the sender |
| `Network.SameRouteSamePath` | node/forwarder/forwarder.go:129-141 | a start and a route determine the path |
| `Network.DeliveredTrail` | node/forwarder/forwarder.go:3-35 | a packet that has gone all the way has left slots both ways along its path, in every continuation |
| `Network.ReplyRetraces` | node/recv.go:77-83 | in every continuation a reply is only on the reversed path, is refused by no forwarder on it, and if delivered has reached the first sender |
| `Network.CompleteIffNoSelfSlot` | node/node.go:79-82 | a delivered packet went its whole route if and only if its label holds no 0 |
| `Network.ReverseCompleteIff` | node/recv.go:77-83 | a delivered packet sent along the reverse of a delivered label has gone its whole route if and only if that label holds no 0 |
| `Network.SelfSlotBreaksReverse` | node/forwarder/forwarder.go:176-191 | after the route of any link and a 0 the reversed label does not leave the node |
| `Bytes.Reverse` | route.go:49-55 | the loop returns the hops in the opposite order |
| `Crypto.SharedSecretAgrees` | key.go:98-102 | both sides get the same secret, not the zero one, and only from each other's key |
| `Kdf.ExpandInjective` | node/session/ikpsk2/util.go:31-51 | different blocks or different inputs never give the same output |
| `Kdf.MixedInjective` | node/session/ikpsk2/util.go:19-25 | two transcript hashes from the same start are equal if and only if the same items were mixed in, in the same order |
| `Kdf.KDF1` | node/session/ikpsk2/util.go:31-34 | HKDF block 1 of RFC 5869 section 2 with empty info, also when the output is the key buffer |
| `Kdf.KDF2` | node/session/ikpsk2/util.go:36-42 | HKDF blocks 1 and 2, also when an output is the key buffer |
| `Kdf.KDF3` | node/session/ikpsk2/util.go:44-51 | HKDF blocks 1 to 3, also when an output is the key buffer |
| `Handshake.HonestHello` | node/session/ikpsk2/handshake.go:116-228 | for all keys and payloads an honest hello is accepted, its payload comes out, and both sides are in step |
| `Handshake.HonestResponse` | node/session/ikpsk2/handshake.go:230-335 | the response of a responder in step is accepted and leaves mirrored keys |
| `Handshake.HonestExchange` | node/session/ikpsk2/handshake.go:116-335 | a whole honest exchange succeeds, with equal hash and chain key and send equal to the other side's receive |
| `Handshake.RolesIff` | node/session/ikpsk2/handshake.go:116-389 | each call is refused for the other role, and messages for those without keys, and for nobody else |
| `Acceptance.HelloAcceptedIff` | node/session/ikpsk2/handshake.go:163-228 | a hello is accepted if and only if it is the hello of some call to this node, and yields that caller's key and payload |
| `Acceptance.ResponseAcceptedIff` | node/session/ikpsk2/handshake.go:279-335 | a response in form is accepted if and only if a responder in step with the caller made it, and yields its payload |
| `Noise.HelloIsFirst` | node/session/ikpsk2/handshake.go:116-161 | header, boxes, chain key and hash of a hello are those of the first message of IKpsk2, tokens e, es, s, ss, with the payload in one more box |
| `Noise.ResponseIsSecond` | node/session/ikpsk2/handshake.go:230-277 | those of a response are the second message, tokens e, ee, se, psk, and the session keys are those of Split |
| `Nonces.OneBoxPerNonce` | node/session/ikpsk2/handshake.go:135-158 | among all boxes in the hellos, responses and messages of any handshakes with fresh ephemeral keys, two with the same key and nonce are the same box |
| `Nonces.KeyNames` | node/session/ikpsk2/handshake.go:135-274 | a key tells what it seals and whose ephemeral key went into it |
| `Nonces.ReusedEphemeral` | node/session/ikpsk2/handshake.go:70-98 | with the same ephemeral key two calls to one peer seal different payloads under the same keys and nonces |
| `Handshake.MessageAt` | node/session/ikpsk2/handshake.go:337-367 | the header and the box of the k-th message of a session |
| `Handshake.CounterReadsBack` | node/session/ikpsk2/handshake.go:348-361 | the receiver rebuilds the sender's nonce from the header |
| `Handshake.NoncesDistinctIff` | node/session/ikpsk2/handshake.go:348-364 | nonces of calls made one after the other are pairwise distinct if and only if there are at most 2^64 |
| `Sealers.OneSealerIsSequential` | node/session/ikpsk2/handshake.go:348-364 | the interleaved steps of one goroutine give the messages of whole calls |
| `Sealers.TwoSealersRepeat` | node/send.go:97-107 | with two goroutines on one handshake the first two messages can have the same nonce under the same key, whatever they carry |
| `Sealers.DistinctIffOneSealer` | node/session/ikpsk2/handshake.go:348-349 | nonces are distinct in every run of at most 2^64 messages if and only if at most one goroutine seals with the handshake |
| `Handshake.AnyOrderOpens` | node/session/ikpsk2/handshake.go:370-389 | in any order and with any duplication each message opens to its own payload |
| `Handshake.HelloHashBinds` | node/session/ikpsk2/handshake.go:163-228 | equal transcript hashes after the hello mean the same hello, keys and ephemerals |
| `Handshake.ResponseBinds` | node/session/ikpsk2/handshake.go:279-335 | an accepted response means equal transcripts before it and mirrored keys after it |
| `Handshake.TranscriptAgreement` | node/session/ikpsk2/handshake.go:163-335 | if an initiator accepts what some responder made, both agree on all messages, both static keys and both ephemerals, and hold mirrored keys |
| `Handshake.SameChainSameParties` | node/session/ikpsk2/handshake.go:230-335 | two finished runs share the chain key if and only if they are between each other with each other's ephemerals |
| `Handshake.OpensIffSameChain` | node/session/ikpsk2/handshake.go:337-389 | a message opens if and only if the chain key is the same and the role is the other one |
| `Handshake.OpensOnlyAtPeer` | node/session/ikpsk2/handshake.go:264-274 | for any two finished runs a message of one opens in the other if and only if they are talking to each other |
| `Handshake.RefusedResponsesHarmless` | node/session/ikpsk2/handshake.go:279-335 | after any number of refused responses the state is the same and the genuine one is accepted |
| `Handshake.RefusedHelloHarmless` | node/session/ikpsk2/handshake.go:163-228 | a refused hello changes no field |
| `Handshake.CheckHello` | node/session/ikpsk2/handshake.go:168-219 | the checks on local copies, step by step, equal the pure description |
| `Handshake.CheckResponse` | node/session/ikpsk2/handshake.go:284-317 | the same for a response |
| `Handshake.Split` | node/session/ikpsk2/handshake.go:264-266 | two session keys, the chain key kept |
| `Handshake.Handshake.SendHello` | node/session/ikpsk2/handshake.go:116-161 | new fields and message, also on the early return for a zero secret |
| `Handshake.Handshake.ReceiveHello` | node/session/ikpsk2/handshake.go:163-228 | new fields and payload, fields unchanged on refusal |
| `Handshake.Handshake.SendResponse` | node/session/ikpsk2/handshake.go:230-277 | new fields, keys and message |
| `Handshake.Handshake.ReceiveResponse` | node/session/ikpsk2/handshake.go:279-335 | new fields, keys and payload, fields unchanged on refusal |
| `Handshake.Handshake.SendMessage` | node/session/ikpsk2/handshake.go:337-367 | the counter rises modulo 2^64 and is the message's nonce |
| `Handshake.Handshake.ReceiveMessage` | node/session/ikpsk2/handshake.go:370-389 | changes nothing; opens with the nonce of the header |
| `Sessions.FirstFree` | node/session/manager.go:53-60 | the first draw that is not taken, none exactly when all are |
| `Sessions.RefusedIff` | node/session/manager.go:160-225 | data is sealed exactly in sessions for the peer that have keys; responses and data are refused for an unknown index, and responses for a session that does not wait, exactly then |
| `Sessions.KeysByStage` | node/session/session.go:120-153 | an initiator is at stage 3 if and only if it has its receive key; a responder has both keys from the start |
| `Sessions.AcceptOk` | node/session/session.go:120-153 | the peer-mismatch branch is unreachable, a refused response changes nothing, an accepted one goes from stage 1 to 3 |
| `Sessions.OnResponseOk` | node/session/manager.go:160-178 | the same for the whole table |
| `Sessions.RunsOk` | node/session/manager.go:110-225 | over any run of whole operations with any incoming messages all sessions stay well formed and the callback log exact |
| `Sessions.CallbacksOnce` | node/recv.go:51-57 | where operations do not interleave, connectedCallback fires at most once per session, and has fired exactly for the sessions at stage 3 |
| `Sessions.FirstDataIff` | node/session/manager.go:206-224 | one uninterrupted call connects its session, and firstdata is true if and only if no callback had fired for it |
| `Sessions.StagesRise` | node/session/manager.go:218-224 | over any run a session keeps peer and role and only rises to stage 3 |
| `Sessions.OpenedNamesPeers` | node/session/manager.go:199-225 | a message that a session accepts was made by its peer, for it |
| `Sessions.DataNamesItsSender` | node/session/manager.go:199-225 | data accepted by any manager in any state, under any index, carries the payload put in and names the node that made it |
| `Sessions.SwapConserves` | node/session/manager.go:86-98 | the count is kept if and only if the new index was free, and all other sessions are untouched |
| `Sessions.CallAnswered` | node/session/manager.go:110-158 | a call and its answer leave two handshakes that the response will pair |
| `Sessions.AnswerAccepted` | node/session/manager.go:160-178 | the table after an accepted response; the address changes only when the packet has one |
| `Sessions.HandshakePairs` | node/session/manager.go:110-178 | both nodes hold the mirrored session under the responder's index, naming each other, whatever happened at the initiator in between; the initiator's is connected and keeps its address unless the response comes with one |
| `Sessions.LandingBreaksPair` | node/session/manager.go:86-98 | a response under the index of the caller's session with a third node: once accepted, that node's session has no other end |
| `Sessions.PairedDataOpens` | node/session/manager.go:180-225 | data of a paired session opens at the other end, names the sender, goes to the session's address, and leaves the pair intact |
| `Sessions.AnySessionFound` | node/session/manager.go:74-84 | if all sessions for a peer are paired, whichever one Find returns will do |
| `Sessions.SessionManager.Insert` | node/session/manager.go:49-64 | stores under the first draw that neither a session nor a nil entry has, and touches nothing else |
| `Sessions.SessionManager.Find` | node/session/manager.go:74-84 | some session of that peer, none exactly when there is none |
| `Sessions.SessionManager.Swap` | node/session/manager.go:86-98 | the new table of sessions and of nil entries: a nil entry is left under the second index exactly when the first has no session |
| `Sessions.SessionManager.Greet` | node/session/manager.go:110-125 | the new table and the hello; the session stays when making the hello fails |
| `Sessions.SessionManager.OnHello` | node/session/manager.go:127-158 | the new table and the response; nothing stored for a refused hello |
| `Sessions.SessionManager.OnResponse` | node/session/manager.go:160-178 | the new table and the peer |
| `Sessions.SessionManager.Seal` | node/session/manager.go:180-197 | the message in the session that Find picked; the error exactly when there is none |
| `Sessions.SessionManager.OnData` | node/session/manager.go:199-225 | stage, callback and result |
| `Receivers.FiresAtMost` | node/session/manager.go:202-224 | in every interleaving of r receive routines and the hello routine the callback fires at most r times for a session that answered and r + 1 times for one that called, and a session is at stage 3 exactly when it has fired |
| `Receivers.ResponderFires` | node/recv.go:127-134 | a run in which all r routines fire for one session that answered |
| `Receivers.InitiatorFires` | node/recv.go:51-57 | a run in which the hello routine and all r receive routines fire for one session that called |
| `Receivers.ResponderOnceIff` | node/recv.go:214-225 | for sessions that answered the callback fires at most once in every run if and only if there is at most one receive routine |
| `Receivers.InitiatorOnceIff` | node/session/manager.go:206-223 | for sessions that called, if and only if there is none beside the hello routine |
| `Receivers.SerialData` | node/session/manager.go:199-225 | an uninterrupted receive routine does what HandleData does in the table of values |
| `Receivers.SerialResponse` | node/session/manager.go:160-178 | an uninterrupted hello routine does what HandleResponse does |
| `Receivers.KeysInterleaved` | node/session/session.go:120-153 | in every interleaving sessions stay well formed, and outside the hello routine's two steps an initiator is at stage 3 if and only if it has its receive key |
| `Receivers.NamesItsSender` | node/session/manager.go:199-225 | after any interleavings at two nodes a packet that opens carries the payload put in and is attributed to the node that sealed it |
| `Honest.AgreeStays` | node/session/manager.go:49-98 | the agreement of all sessions of a network survives any step that keeps what one node's table must keep |
| `Honest.HelloEvolves` | node/session/manager.go:127-158 | so does answering any hello, forged ones included, under any index that is free at this node, and the response belongs to the new session |
| `Honest.ResponseEvolves` | node/session/manager.go:160-178 | so does refusing a response that some node made, or accepting it on an index that is free here or of a session still waiting |
| `Honest.SealEvolves` | node/session/manager.go:180-197 | so does sealing data |
| `Honest.DataEvolves` | node/session/manager.go:199-225 | so does data some node made: what connects a session that answered comes from the connected session that accepted its response |
| `Honest.LandingBreaksIff` | node/session/manager.go:86-98 | a response accepted on the index of a session paired with v keeps a pair with v if and only if v made the response |
| `Honest.SelfLanding` | node/session/manager.go:160-178 | a node that accepts its own answer lands on it and is left with a connected session for itself that is not paired |
| `Honest.ConnectedPaired` | node/session/manager.go:110-225 | under that agreement every connected session has its other end, mirrored, under the same index at the node it names |
| `Honest.OpensIffPaired` | node/session/manager.go:74-84 | whichever session with keys Find returns, its data opens at the peer if and only if the peer holds the other end |
| `Overlay.RunSound` | node/node.go:196-225 | at every state of every run with free landings of entering, shaking hands, attaching once or again, and learning ways back: sessions agree, forwarders are well formed, slots belong to peers with a connected session that has an address, and every known route leads to its peer |
| `Overlay.EveryAddressResolves` | node/routing/routing.go:32-77 | at every state of every run a node finds each peer in its table by IPv6 address as it does by PeerID, if no other there has that address |
| `Overlay.EveryConnectedSessionIsPaired` | node/session/manager.go:110-225 | hence every connected session of the network is paired, at every state that free landings reach |
| `Overlay.EverySlotIsLinked` | node/node.go:199-207 | hence every slot has a session with an address there, and its other end back, at every such state |
| `Overlay.FoundSessionOpensIff` | node/session/manager.go:180-225 | hence the exact condition on a found session at every such state; at stage 3, which the sender can see, its data opens |
| `Overlay.EveryKnownPeerIsReached` | node/node.go:272-291 | hence there are sessions, which Find may return, over which Node.Send delivers to any peer in the routing table, at every such state; over more than one hop the ends must be connected |
| `Overlay.FoundSessionsDeliverIff` | node/send.go:97-152 | for every session that Find may return at each hop and between the ends, at every such state: Node.Send delivers if and only if each link's is paired and has an address and, over more than one hop, that of the ends is paired |
| `Scenarios.LinkUp` | node/recv.go:40-62 | at any state any two nodes can link up under any index free at both: each gets one more session, slot and route, and nothing else changes |
| `Scenarios.TwiceAttached` | node/node.go:196-210 | a run for any two nodes in which the callback fires again and the peer has two slots |
| `Scenarios.OrphanReachable` | node/session/manager.go:127-158 | a run for any two nodes after which the answerer holds a session with keys that Find may return and whose data does not open |
| `Scenarios.ShadowReachable` | node/recv.go:64-95 | a run for any two nodes after which they are neighbours and one holds a second, paired session for the other over which no packet crosses |
| `Scenarios.LandingReachable` | node/session/manager.go:160-178 | a run for any three nodes whose landings are not free, after which a connected session is not paired |
| `Scenarios.AwayReachable` | node/routing/routing.go:32-61 | a run for any four nodes after which two of them are neighbours and one's first route for the other leads elsewhere, now and after any additions |
| `Scenarios.DetourReachable` | fcnet/ping.go:41-124 | in the same run a probe over one of them is answered over the fourth node, and the time-exceeded packet is shown |
| `Devices.RunsArriveAsSent` | node/send.go:97-152 | at every state that free landings reach, whatever is sent over any route and sessions: what arrives is what was sent, where it was sent, from whom it was sent |
| `Devices.RunsBear` | fcnet/fcnet.go:225-247 | and what a device is written bears the sender's own address and that of its own node |
| `Devices.EveryAddressIsReached` | fcnet/fcnet.go:138-191 | and a packet read from a device for the address of a known peer is written to that peer's device, over sessions that Find may return |
| `Devices.AnswersComeBack` | node/recv.go:227-228 | and once it has taught that peer the way back, an answer read from the peer's device is written to the first one |
| `Layout.UvarintReadsBack` | packet.go:92-105 | a codec reads back whatever bytes follow it |
| `Layout.UvarintIff` | packet.go:92-105 | a codec is read exactly where its bytes are, so in one spelling only |
| `Layout.CodecReadsBack` | packet.go:98-105 | SetCodec works if and only if the codec is below 2^28, reads back over stale bytes, and changes only its four bytes |
| `Layout.SetRoute` | packet.go:81-90 | for routes of any length exactly which bytes are written, and the failure exactly beyond 1430 hops |
| `EndToEnd.LabelIsHeader` | packet.go:81-90 | up to 14 hops those bytes are the header that forwarders read |
| `Layout.SealFits` | node/session/packet.go:236-255 | sealing fails if and only if the packet does not fit, and otherwise keeps the length that the callers drop |
| `Layout.SealWrites` | node/session/manager.go:186-194 | type, index, nonce and ciphertext are where the receiver looks, everything else is as before |
| `Layout.SealOpens` | node/session/manager.go:199-216 | opening any buffer that carries the sealed bytes restores the plain bytes and keeps what is around them |
| `Layout.WrongKeyRefused` | node/session/manager.go:208-211 | a packet sealed with one key does not open with a key that the cipher tells from it |
| `Layout.SealInPlace` | node/session/manager.go:186-194 | the in-place writes equal the pure description, at any offset and padding; where only the ciphertext does not fit, the header has been written, otherwise nothing |
| `Layout.OpenInPlace` | node/session/manager.go:208-216 | the same for opening, and only the type field changes on failure |
| `EndToEnd.CrossKeeps` | node/send.go:97-107 | one link, over a paired session with an address, hands over all bytes between the lower header and the lower tag, and names the sender |
| `EndToEnd.CrossClean` | node/transport.go:105-123 | and nothing behind the length of the packet |
| `EndToEnd.CrossIff` | node/transport.go:131-134 | whichever session Find returned for a link, the packet crosses if and only if the peer holds its other end and it has an address |
| `EndToEnd.RelayHop` | node/recv.go:124-172 | one hop, opened, relabelled and sealed again, leaves the upper packet alone |
| `EndToEnd.RelayTrail` | node/recv.go:163-172 | so do all hops to the end of the trail, over paired sessions with addresses |
| `EndToEnd.UpperOpens` | node/recv.go:214-265 | whatever happened to the label, the upper packet opens to the sent codec and payload |
| `EndToEnd.UpperRecvIff` | node/recv.go:189-228 | the upper layer takes in exactly data packets of sessions it has that open and have a codec |
| `EndToEnd.RoutedDelivers` | node/send.go:142-152 | the doubly sealed path delivers over any trail of 1 to 13 hops, with the label of slots back, if the links have paired sessions with addresses and the ends a paired one |
| `EndToEnd.Delivers` | node/node.go:272-291 | end to end, over paired sessions that have addresses on the links: along the route in the sender's table every payload up to 1364 bytes reaches the handler with the sent codec and the sender as UpperSrc |
| `EndToEnd.DeliversIff` | node/node.go:272-291 | over any sessions that Find may return the payload is delivered if and only if all of those are such sessions; otherwise it reaches no handler |
| `EndToEnd.TooLongNeverArrives` | packet.go:17-21 | a payload of more than 1364 bytes reaches no handler, in any network |
| `EndToEnd.ShortcutRefines` | node/send.go:134-140 | the one-hop shortcut delivers what the doubly sealed path would deliver |
| `EndToEnd.TeachesWayBack` | node/recv.go:227-228 | the route a destination learns is the reverse of the label and leads back over the same nodes |
| `EndToEnd.ReplyDelivers` | node/recv.go:227-228 | a destination that knew no route to the sender reaches it with any reply along the one it learns |
| `EndToEnd.LearnedByAddress` | node/routing/routing.go:32-77 | what a node learns it finds by IPv6 address: the new peer along the learned route if it had none, all others as before |
| `EndToEnd.PairedIsLinked` | node/session/manager.go:180-225 | a session paired by the handshake connects both ends, and is a link where it has an address |
| `Arrivals.OpensAsSealed` | node/session/manager.go:199-225 | a box opens only at the node that its session names, and names the node that sealed it |
| `Arrivals.RelayKeepsUpper` | node/recv.go:163-172 | wherever any tables take a packet, its upper part stays as it was |
| `Arrivals.ArrivesAsSent` | node/send.go:97-152 | over any tables, routes and sessions nothing is delivered but to the node it was sent to, with the codec and payload sent and the sender as source |
| `Fcnet.TunActs` | fcnet/fcnet.go:138-223 | each of the seven actions of handleTunPacket if and only if its condition on length, addresses, route, hop limit and protocol holds |
| `Fcnet.ResolverStaysHome` | fcnet/fcnet.go:167-171 | a packet of this node for fc00::1 goes to the node's own resolver and is never sent, and nothing else goes there |
| `Fcnet.FcnetActs` | fcnet/fcnet.go:225-247 | handleFcnetPacket writes exactly whole IPv6 packets from the one address to the other, and each refusal has its reason |
| `Fcnet.NoSpoofing` | fcnet/fcnet.go:225-247 | whatever is sent to whomever over any route and sessions, a device is written exactly what was delivered if it is such a packet from the sender's address to the destination's, and nothing otherwise |
| `Fcnet.SendBears` | fcnet/fcnet.go:238-243 | the same over Node.Send: a packet with another source address than its sender's is written nowhere |
| `Fcnet.DeviceWrittenIff` | fcnet/fcnet.go:225-247 | along a trail, for any payload and any sessions that Find may return: written if and only if all sessions are good, it fits, and it is such a packet |
| `Fcnet.TunReachesIff` | fcnet/fcnet.go:138-191 | device to device, with the route looked up by address: any packet read is written to the destination if and only if it bears the two addresses, may leave, has hops enough, fits, and all sessions are good |
| `Fcnet.TunDelivers` | fcnet/fcnet.go:183-191 | over good sessions such a packet gets there, for any cipher that opens what it seals |
| `Fcnet.TunRoundTrip` | node/recv.go:227-228 | a destination without a route to the sender finds the one it learns by the sender's address, and its answer, read from its device, is written to the first one |
| `Icmp.IcmpChecksum` | fcnet/ping.go:128-140 | the 32-bit loop computes the checksum function for buffers of any length |
| `Icmp.NoOverflow` | fcnet/ping.go:130-136 | up to 131074 bytes the sum cannot overflow |
| `Icmp.OverflowIff` | fcnet/ping.go:130-136 | no buffer of length n overflows the 32-bit sum if and only if n is at most 131074 |
| `Icmp.FoldKeeps` | fcnet/ping.go:137-138 | two folds suffice: the remainder modulo 65535 is kept, and zero only comes from zero |
| `Icmp.MatchesInternetChecksum` | fcnet/ping.go:128-140 | the bytes written are those of the big-endian one's complement definition in sections 1 and 2(B) of RFC 1071 |
| `Icmp.PatchedVerifies` | fcnet/ping.go:91-93 | with the result in the zeroed field the checksum is 0 |
| `Traceroute.TimeExceededAccepted` | fcnet/ping.go:82-107 | the packet built passes every check of handleFcnetPacket, verifies, and carries the datagram |
| `Traceroute.TimeExceededIff` | fcnet/ping.go:65-107 | the packet built is the one time-exceeded packet of sections 2.3 and 3.3 of RFC 4443: every byte of header, type, code, checksum over the pseudo header of section 8.1 of RFC 8200, unused bytes and datagram |
| `Traceroute.PingHopsLeft` | fcnet/ping.go:200-203 | with any label a ping is forwarded exactly while it has a hop left, to the slot of that hop, and its position never passes the length |
| `Traceroute.PingHop` | fcnet/ping.go:34-39 | a ping that is not at its destination is forwarded with its body intact, one that is stays |
| `Traceroute.PingDelivers` | fcnet/ping.go:200-258 | along any trail of 1 to 14 hops a ping reaches exactly the last node with sender, request id and payload intact |
| `Traceroute.PingTooLong` | fcnet/ping.go:248-258 | a ping with more than 1348 bytes of payload reaches no node |
| `Traceroute.PingArrivesIff` | fcnet/ping.go:34-124 | at a destination any ping is refused, answered or shown if and only if its condition holds; only answers to datagrams of this node are shown, as time-exceeded packets |
| `Traceroute.PingBackLeadsIff` | fcnet/ping.go:41-49 | the answer's route is a way back along the path if and only if its first byte is a slot to the previous hop |
| `Traceroute.KnowsSlotIff` | fcnet/ping.go:41-46 | the byte that a destination writes leads to the previous hop exactly if its first route for that hop goes there first |
| `Traceroute.ProbeReturnsIff` | fcnet/ping.go:34-125 | there over the links of a trail, back over the links that the answer's label leads over: the sender is shown the last node's time-exceeded packet if and only if that node has a route for the previous hop, the slots of the label lead to the sender over nodes that know the hop they are reached from, and the sender has a route for the last of them |
| `Traceroute.RetracesIf` | fcnet/ping.go:41-49 | if the last node's first route for the previous hop begins with a slot to it, the answer goes back exactly the way the ping came |
| `Traceroute.Detour` | fcnet/ping.go:41-49 | if it begins with a slot to another neighbour, from which the next label byte leads home, the answer comes home that way |
| `Traceroute.EveryHopAnswersIff` | fcnet/fcnet.go:183-217 | for a route from the table and every hop limit k below its length, up to 14, exactly the k-th node is reached, and its accepted answer is shown under exactly that condition |
| `Traceroute.AwayForGood` | node/routing/routing.go:51-61 | a node whose first route for a peer begins with another peer's slot never again answers over the link to that peer, whatever routes and slots are added |
| `RingBuffer.StepConserves` | node/util/ringbuf/ringbuf.go:17-34 | no step of any interleaving loses or duplicates a packet, the hand-overs of a channel without a queue included |
| `RingBuffer.ExactlyOnePlace` | node/util/ringbuf/ringbuf.go:17-34 | at every state each packet put is queued, received, dropped or held by one unfinished call, once, and the queue is within its capacity |
| `RingBuffer.StepOrderly` | node/util/ringbuf/ringbuf.go:17-34 | with one producer the queue is a run of consecutive packets newer than all that left it |
| `RingBuffer.OneProducerInOrder` | node/util/ringbuf/ringbuf.go:17-34 | with one producer packets are received in the order put |
| `RingBuffer.CounterNeverAhead` | node/util/ringbuf/ringbuf.go:22-24 | with any number of producers Dropped never exceeds the drops |
| `RingBuffer.CountLost` | node/util/ringbuf/ringbuf.go:22-24 | for every capacity and number of producers where two calls can count at once, a run that drops two packets and counts one |
| `RingBuffer.CountExactIff` | node/util/ringbuf/ringbuf.go:17-46 | Dropped is exact whenever no producer is inside a call, in every run, if and only if there is at most one producer, or two and no queue |
| `RingBuffer.SoloPut` | node/util/ringbuf/ringbuf.go:17-26 | uninterrupted, the five steps have the effect of one call |
| `RingBuffer.Channel.Put` | node/util/ringbuf/ringbuf.go:17-26 | the newest packets are kept, at most one is dropped and counted; a waiting consumer gets the packet; the call blocks exactly without a queue and a consumer |
| `RingBuffer.Channel.Get` | node/util/ringbuf/ringbuf.go:32-34 | the oldest packet leaves; the call blocks exactly on an empty channel |
| `Routing.AddedKeeps` | node/routing/routing.go:32-46 | routes stay in order and are not repeated |
| `Routing.FirstRouteStays` | node/routing/routing.go:32-61 | after any additions GetRoute gives the first route ever added for the peer |
| `Routing.ResolvesOverRuns` | node/routing/routing.go:36-48 | every listed peer's address is known and leads to a listed peer with that address |
| `Routing.LookupFinds` | node/routing/routing.go:71-77 | LookupIPv6 of a listed peer's address gives that peer unless another has the same address |
| `Routing.LatestTakesAddress` | node/routing/routing.go:32-49 | after any additions an address leads to the peer of the last new route for it |
| `Routing.Routing.AddRoute` | node/routing/routing.go:32-49 | the new tables; a repeated route changes neither |
| `PeerIds.KeyReadsBack` | peerid.go:99-106 | PublicKey undoes NewPeerID |
| `PeerIds.PeerIDReadsBack` | peerid.go:42-50 | NewPeerID undoes PublicKey, so comparing PeerIDs compares keys |
| `PeerIds.KeyWords` | peerid.go:42-50 | which bytes of the key each word is made of, the first one counting most |
| `Bytes.BigEndianReadsBack` | peerid.go:114-131 | reading undoes writing, for values in range |
| `Bytes.BigEndianWritesBack` | peerid.go:114-131 | writing undoes reading |

## Left out

- UDP sockets, TUN devices, DNS, the HTTP API, the command line, configuration, discovery, Start and Stop, logging and multiaddr parsing.
- Curve25519, BLAKE2s and ChaCha20-Poly1305 themselves; a box that opens to something that is not a key is refused as a static key, and all failed opens give one error.
- Acceptance.ResponseAcceptedIff: does not say who makes a response with an ephemeral key of small order, which ConsumeResponse does not refuse as such.
- The byte layout of hello and response packets; in `Sessions` those messages are records.
- `Sessions` keeps sessions as values in the table; pointers are in `Receivers`, where calls, hellos and sealed data are still one step each and the nonce counter is left to `Sealers`.
- Memory ordering: an interleaved step is one atomic load, store or locked section; weaker orders of the Go memory model are not captured.
- Remove, which nothing calls.
- WaitFor, the waiter channels of connectedCallback and the hello queues.
- Landings on sessions with keys, after which the theorems of `Overlay` do not hold; what they break is stated in `Honest` and `Scenarios`.
- Where an address leads: a packet sent over a session with an address arrives at the peer that the session names. In `Overlay` data over the lower layer connects only sessions that have an address, as those that lower hellos made do.
- EndToEnd.DeliversIff: that a box does not open with another key in use is a hypothesis on the cipher (`EndToEnd.Separates`); `Layout.TaggedSeparates` shows that any two keys can be told apart so.
- doLowerSend, doUpperSend, doLowerRecv, doLowerMux, doUpperRecv and doUpperMux are functions on a buffer, a length and a snapshot of all nodes, composed without their queues; sessions, slots and registered handlers do not change while one packet is on its way, and its nonces are arbitrary.
- A packet sent to slot 0 by its own sender, and a ping that a zero byte in its route hands to an upper queue, count as lost in `EndToEnd` and `Traceroute`; `Network` does deliver the former.
- Routes of more than 255 bytes in Send, whose length byte wraps around, and hop limit 0, where a ping with an empty route goes to the sender's own upper queue.
- PingArrives: a label position of 254 or 255 at a destination, where the source's byte sum wraps around, is refused like 14 to 253.
- icmp.TimeExceeded.Marshal is taken to be four zero bytes and the datagram, as section 3.3 of RFC 4443 lays it out, and go-varint to refuse a number that ends in a zero byte; both libraries are not part of this model.
- The sender of a ping: sign and verify are stubs, so that an answer is shown from the address of whichever key it holds (`Traceroute.PingArrivesIff`); `Fcnet.NoSpoofing` is about packets that are sent, not about pings.
- The stub functions sign and verify, PlaintextPacket and calculatePaddingSize.
- The progress of a blocked Put or Get; a step that would block changes nothing.
