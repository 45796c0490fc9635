# Zaycomm protocol core: a verified model

A Dafny model of the state machines in Zaycomm's protocol core, with proofs about whole
runs of them. `dafny verify dfyconfig.toml` checks everything.

What the source updates in place is modelled twice. Functions on values say what each
operation does; classes and methods update fields, maps and sequences the way the source
does and are proved to do what those functions say. The theorems about runs are stated
over the functions, so they hold of the objects.

## The parts

**Sessions.** `Ratchet`, `RatchetSession`, `RatchetKeys`, `RatchetDelivery`,
`RatchetInvariant` and `RatchetRuns` model the double ratchet: two parties started from
one root key and a network that loses, reorders, replays, alters and forges. One invariant
says that each side is in step with the key schedule of the session (its remote key is the
peer's current ratchet key or the one before it), that its cache of skipped keys is exactly
the keys of undelivered messages it has gone past, and that opened ciphertexts are sent
messages. From it: exactly the due messages open, each once and to its own plaintext.
Header numbers are authenticated modulo 2^32 and used as they are; `RatchetLoss` says
exactly which messages that can cost, and that none are lost while numbers stay in range.
`RatchetSecrecy` says which message keys somebody can compute who seizes everything a party
holds: forward secrecy and healing.
`Handshake`, `SessionGate`, `IntroductionSession` and `PairingRuns` model the Noise IK
handshake, the identity gate and the QR pairing that supply the root key;
`HandshakeSecrecy` says which private keys the handshake's keys depend on, and so whose
messages are accepted; `SecureChannel` joins handshake and session. `SignedFormats` and `SealedEnvelope` work on bytes: which signed strings can
be confused (none, at the lengths the code enforces), and what of a routing header the
ratchet authenticates. `SealedDelivery` joins sessions and mesh: what a network delivers of
a sealed envelope opens as if handed over directly.

**The mesh.** `RouteTable`, `ForwardQueue`, `Relay` (handlers on values) and `RelayObject`
(the relay object) model one relay. `RelayTrust`, `RouteHistory` and `RelayDelivery` prove what every
sequence of calls with arbitrary arguments keeps, so nothing is assumed of neighbors.
`RelayForwarding`, `RouteLearning` and `TrustHistory` say what calls bring about: where an
envelope goes, what an advertisement gives and sets free, and what trust counts.
`MeshAccounting` and `MeshNetwork` put relays and frames together and balance the books of
the whole network: one identity, read for copies, is conservation; read for copies equal to
the original, it says that nothing is altered on the way; read for hops, it is the bound on
transmissions. `SyncProtocol` (handlers on values) and `SyncObject` (the object) are store and
forward synchronisation with its sealed packets and replay record. `SyncHistory` expands runs
with sync packets into runs of a relay's other calls, so that what `RelayTrust`,
`RouteHistory` and `RelayDelivery` prove holds with them too; `SyncRounds` composes the
handlers to rounds. `SyncReplay` is about packets that come again or from others, and
`SyncAnswers` about how much a request or a transfer brings. `MeshDelivery` shows that an
envelope that meets routes all the way arrives. `BroadcastFlood` treats the flooding of
broadcasts, `FloodCoverage` whom it reaches; `BroadcastBudget` is the limiter both ends of a
broadcast pass.

**Fragments and frames.** `Fragments` proves that the reassembler's counters equal the sums
they stand for and keep every limit, under any fragments; `FragmentDelivery` is the round
trip for any number of interleaved envelopes, from several peers at once. `Framing`,
`ChannelRuns` and `FieldPacking` are the smaller formats under the pairing exchange.

`Basics`, `Symbolic`, `OrderedMaps`, `Totals`, `FiniteSets` and `Envelopes` hold what
these share. A JavaScript `Map` whose order matters is an `OrderedMap`: a map and the order
of first insertion.

## Reading the models

Cryptography is symbolic. Keys, hashes, ciphertexts and signatures are terms, equal only
when they were made in the same way; a ciphertext opens only under the key, nonce and
associated data it was sealed with; a signature verifies only for its signer and statement;
new keys and random ids are parameters that name something new. An attacker may send any
packet whose ciphertext was sent before or is not sealed under a key derived from the
session's root key.

The clock is a parameter, read once per handler. What the transport answers to a send is a
parameter too (`up`, `ups`), and a send is one atomic step.

Results that differ from what comments or names in the source suggest:

- The broadcast limiter's windows allow 39 messages of one origin within 60 seconds, not
  20: `BroadcastBudget.AtMostInAnyInterval` proves the bound, `BroadcastBudget.BoundIsReached`
  that it is met.
- The ratchet authenticates header numbers modulo 2^32 but reads them as they are. A packet
  whose previous chain length is lowered by 2^32 opens, and the messages of the previous
  chain still missing can never be opened again (`RatchetLoss.AlteredLengthLoses`,
  `RatchetLoss.AMessageIsLost`). `RatchetLoss.LosesIfAltered` is the exact condition, and
  with numbers in range nothing is lost (`RatchetLoss.NothingLost`).
- The associated data of a data envelope puts the message id and the destination hint end
  to end without their lengths, and decoding an envelope checks neither length. A byte moved
  from one to the other is not noticed (`SealedEnvelope.MovedByteOpens`).
  `SealedEnvelope.OpensExactly` gives the exact condition; with ids of one length it is
  equality of every field (`SealedEnvelope.FieldsAuthenticated`).
- A relay queues envelopes with message ids of any length, but refuses a summary that lists
  one whose id is not 16 bytes long or whose TTL is not a safe integer. One such envelope
  stops all synchronisation from its holder until it expires
  (`SyncRounds.UnlistableStopsAll`, `SyncRounds.UnlistableIsQueued`);
  `SyncRounds.UnlistableStopsRound` is the exact condition.
- A displayer given an introduction to expect compares it with the introduction of the first
  message, while the session is with the identity of the second frame. The two can differ
  (`IntroductionSession.AnotherThanExpected`); `IntroductionSession.ExpectationExact` says
  when they agree.
- `fragmentEnvelope` may cut pieces its own decoder refuses. `FragmentDelivery.SentAreAccepted`
  says when: exactly when both the chunk size and the encoding exceed 4096 bytes
  (`FragmentDelivery.RefusedFragment` is an instance).
- While one peer's fragments of an envelope are pending, for up to 30 seconds, the fragments
  other peers send of the same envelope are refused, even all of them
  (`FragmentDelivery.OthersHeldUp`; `FragmentDelivery.OnePieceHoldsUp` is an instance).
  `FragmentDelivery.LostExactly` is the exact condition.
- `fragmentEnvelope` may also cut pieces that do not fit the MTU it is given: it reckons with
  32 bytes of overhead, which are enough, but for an MTU of 32 or less it cuts pieces of one
  byte. `FragmentDelivery.FragmentsFit` says when all fit.
- A neighbor that registers anew and advertises a hint again while its route is validated
  gets a route that stays validated without the binding it needs, so that lookup does not
  choose it. `RouteLearning.AdvertisementGives` is the exact condition.
- A broadcast need not reach every relay within its TTL, because a longer path may come
  first and use up the hops (`FloodCoverage.LongerPathFirst`). With as many hops as there are
  relays it reaches all (`FloodCoverage.EveryoneDelivers`).
- The first handshake message authenticates its sender, but not to a responder whose own
  static key is known to others (`HandshakeSecrecy.FirstPayloadKey`).
- `packFields` writes lengths modulo 65536, so unpacking inverts it exactly for fields
  shorter than that (`FieldPacking.UnpackPack`).
- Decrypting fails for an honest message exactly when a gap exceeds MAX_SKIP;
  `RatchetLoss.FirstDeliveryInRange` states the gap as the receiver can compute it beforehand.

## Model

| member | source | states |
|---|---|---|
| Ratchet.DoubleRatchet.FromState | src/crypto/ratchet.ts:90-113 | a new ratchet holds exactly the given keys, counters and cache |
| Ratchet.DoubleRatchet.RestoreState | src/crypto/ratchet.ts:129-139 | every field is back to the snapshot |
| Ratchet.DoubleRatchet.SkipMessageKeysUntil | src/crypto/ratchet.ts:151-162 | the loop caches exactly the keys of the skipped numbers and advances the chain past them; a gap above 1000 is refused and changes nothing |
| Ratchet.DoubleRatchet.PerformDhRatchetStep | src/crypto/ratchet.ts:164-178 | the step derives both new chains in order and keeps the old sending length; a refused key makes it fail |
| Ratchet.DoubleRatchet.EncryptMessage | src/crypto/ratchet.ts:180-200 | the packet is sealed under the chain's current key with header and caller's data authenticated, and the chain moves by one; without a chain nothing changes |
| Ratchet.DoubleRatchet.DecryptMessage | src/crypto/ratchet.ts:214-244 | a packet that opens commits exactly the prescribed state; any failure leaves every field as it was |
| Ratchet.DoubleRatchet.TryDecrypt | src/crypto/ratchet.ts:217-239 | the body of the try block succeeds exactly when decryption does, with the prescribed state |
| Ratchet.CacheGrowth | src/crypto/ratchet.ts:151-162 | one decrypt of any packet adds at most 2000 skipped keys |
| RatchetSession.StartInv | src/crypto/ratchet.ts:104-113 | two ratchets initialised from one root key are in step |
| RatchetKeys.ChainsDisjoint | src/crypto/ratchet.ts:21-30 | two chains share a key only if they are the same chain at the same number |
| RatchetKeys.MessageKeysDistinct | src/crypto/ratchet.ts:21-30 | no two messages of a session have the same message key |
| RatchetKeys.NextChainKeyIsUnique | src/crypto/ratchet.ts:164-178 | a ratchet step on a header key yields a message's key exactly when that header key is the peer's next one |
| RatchetKeys.OpensOnlyIfSent | src/crypto/ratchet.ts:202-212 | a packet that opens under a session key is one that was sent: its ciphertext and associated data are unaltered, and its header is the same as far as numbers are encoded |
| RatchetDelivery.DecryptExact | src/crypto/ratchet.ts:214-244 | in any reachable state a packet, its header numbers any integers, opens if and only if it copies an unopened message of the peer under a header that leads to that message within the gap limit, and then to its plaintext |
| RatchetInvariant.StepKeepsInv | src/crypto/ratchet.ts:180-244 | every send and every delivery of any packet keeps both sides in step, the skipped-key caches exact and keys unique |
| RatchetRuns.RunKeepsInv | src/crypto/ratchet.ts:104-244 | the same over every run |
| RatchetRuns.OpensOnceWhatWasSent | src/crypto/ratchet.ts:214-244 | whatever opens at the end of a run was sent by the peer with that plaintext, is unaltered but for what header numbers do not show when encoded, and has not been opened before |
| RatchetRuns.FirstDelivery | src/crypto/ratchet.ts:145-244 | in any run, an unopened ciphertext under any header and associated data opens if and only if these seal as the original's, the header passes the receiver's gap checks for that message, and the receiver did not leave the message's chain before it |
| RatchetLoss.LostExactly | src/crypto/ratchet.ts:151-178 | a step loses messages exactly when it leaves a chain by a DH ratchet step, and exactly those of the chain beyond the number it is left at; what is lost stays lost |
| RatchetLoss.LostForever | src/crypto/ratchet.ts:214-244 | over any further run no packet with a lost message's ciphertext opens, whatever its header |
| RatchetLoss.LosesIfAltered | src/crypto/ratchet.ts:38-40 | a packet of the next chain that opens loses messages if and only if its previous chain length was altered and messages of that chain beyond those received are missing |
| RatchetLoss.AlteredLengthLoses | src/crypto/ratchet.ts:214-239 | in every reachable state, lowering that length by a multiple of 2^32 leaves a due packet opening and loses every missing message beyond the lowered number; unaltered it loses none |
| RatchetLoss.AMessageIsLost | src/crypto/ratchet.ts:38-40 | a run of three messages and an answer in which one altered number loses a message |
| RatchetLoss.NothingLost | src/crypto/ratchet.ts:151-178 | no message is lost in any run whose opened packets carry lengths from 0 to 2^32 - 1 and whose chains are shorter than that |
| RatchetLoss.FirstDeliveryInRange | src/crypto/ratchet.ts:145-162 | in such a run the first delivery of a message as it was sent returns its plaintext if and only if its gaps, as the receiver can compute them, are at most 1000 |
| RatchetRuns.RejectedLeaveNoTrace | src/crypto/ratchet.ts:214-244 | deleting every rejected delivery from a run gives a possible run with the same final state and the same results |
| RatchetRuns.EncryptsUseDistinctKeys | src/crypto/ratchet.ts:180-200 | no two encrypts of a run use the same message key |
| RatchetSecrecy.SeizedStateReveals | src/crypto/ratchet.ts:21-30 | whoever seizes all a party holds and knows some private keys can compute exactly these message keys of the session, as far as it may go on: those of its sending chain not used yet, of its receiving chain not derived yet, those of messages it waits for, and later ones as long as a private key of every ratchet step is known |
| RatchetSecrecy.MessageKeyRevealsItself | src/crypto/ratchet.ts:26-30 | one message key, whatever private keys are known besides, gives no other message key, no chain key and no root key of the session |
| RatchetSecrecy.ForwardSecrecy | src/crypto/ratchet.ts:180-244 | at no moment of any run does what a party holds, with any private keys, give the key of a message it has sent or opened |
| RatchetSecrecy.Healing | src/crypto/ratchet.ts:164-178 | a seized state, its private ratchet key included, gives no message key from the second ratchet step after on |
| Handshake.SymmetricState.constructor | src/crypto/handshake.ts:49-52 | a new state has the given hash and chaining key, no key and nonce 0 |
| Handshake.SymmetricState.Absorb | src/crypto/handshake.ts:55-60 | mixHash: only the transcript hash changes |
| Handshake.SymmetricState.Rekey | src/crypto/handshake.ts:67-72 | mixKey: new chaining key and key, nonce back to 0 |
| Handshake.SymmetricState.Seal | src/crypto/handshake.ts:80-91 | encryptAndHash as prescribed, in the clear before the first key |
| Handshake.SymmetricState.Unseal | src/crypto/handshake.ts:94-105 | decryptAndHash as prescribed; a failure changes nothing |
| Handshake.NewState | src/crypto/handshake.ts:138-151 | prologue and responder's static key are mixed in |
| Handshake.InitiatorWriteMessage1 | src/crypto/handshake.ts:179-203 | message and state of tokens e, es, s, ss in order |
| Handshake.ResponderReadMessage1 | src/crypto/handshake.ts:210-228 | state, static key and payload read from message one, or the first failure |
| Handshake.ResponderWriteMessage2 | src/crypto/handshake.ts:243-269 | message and result of tokens e, ee, se and split |
| Handshake.InitiatorReadMessage2 | src/crypto/handshake.ts:278-297 | the initiator's result, or the first failure |
| Handshake.Agreement | src/crypto/handshake.ts:179-297 | two completed runs have equal handshake hashes if and only if they are the two ends of one handshake; they then agree on static keys, ephemerals and payloads and hold one root key and crossed, distinct transport keys |
| Handshake.HonestRunsComplete | src/crypto/handshake.ts:179-297 | honest runs complete on both sides with equal hashes |
| HandshakeSecrecy.FirstPayloadKey | src/crypto/handshake.ts:186-224 | the key of an accepted first payload can be computed exactly by the responder or with the private keys of both the ephemeral and the static key the message names, and the one that hides that static key exactly with the responder's or the ephemeral one |
| HandshakeSecrecy.InitiatorKeys | src/crypto/handshake.ts:278-297 | root key, transport keys and the key of the reply can all be computed exactly by whoever knows both private keys of one side, and else none of them |
| HandshakeSecrecy.ResponderKeys | src/crypto/handshake.ts:243-269 | the same on the responder's side |
| HandshakeSecrecy.FirstMessageIsAuthentic | src/crypto/handshake.ts:210-228 | a first message a responder accepts was written by an honest initiator with the static key it names, to this responder and with this payload, unless the responder's private key or both of the sender's are known |
| HandshakeSecrecy.ReplyIsAuthentic | src/crypto/handshake.ts:278-297 | a reply an initiator accepts was written by an honest responder with the addressed static key in answer to this first message, unless both private keys of one side are known |
| HandshakeSecrecy.NoNonceTwice | src/crypto/handshake.ts:67-105 | whatever is done to a symmetric state, it never seals twice under one key and nonce |
| SessionGate.GateExact | src/crypto/session.ts:77-120 | the gate opens if and only if both bindings were made for this transcript, these keys, opposite roles and the expected identities |
| IntroductionSession.ScannedPeerIsAuthentic | src/identity/introduction-session.ts:161-238 | a session returned to the scanner means that the owner of the scanned identity ran the other end of this handshake with the scanned static key and holds the matching keys |
| IntroductionSession.RespondingPeerIsAuthentic | src/identity/introduction-session.ts:255-333 | a session returned to the displayer means the same of the identity it names |
| IntroductionSession.RunScanner | src/identity/introduction-session.ts:161-238 | over a channel whose sends and receives may fail at any point, the scanner's steps send and return exactly what the exchange prescribes |
| IntroductionSession.RunDisplayer | src/identity/introduction-session.ts:255-333 | the same for the displayer's steps |
| IntroductionSession.ExchangesUseTwoFrames | src/identity/introduction-session.ts:161-333 | a side returns a session only after the two frames it waits for have arrived and passed and its two own were sent |
| IntroductionSession.ScannerAcceptsExactly | src/identity/introduction-session.ts:161-238 | the scanner returns a session if and only if the scanned introduction announces the required capability, the handshake completes, and the last frame introduces the scanned identity and holds its binding to this handshake |
| IntroductionSession.DisplayerAcceptsExactly | src/identity/introduction-session.ts:255-333 | the displayer returns one if and only if the first message completes the handshake and introduces whom it expects with the required capability, and the second frame holds the binding of the identity it introduces to the static key of the first |
| IntroductionSession.ExpectationExact | src/identity/introduction-session.ts:275-333 | with an expected introduction, a session is returned only if the first message names the expected identity, and it is with that identity if and only if the second frame names it too |
| IntroductionSession.AnotherThanExpected | src/identity/introduction-session.ts:275-333 | for every displayer with an expectation there are frames that return a session with another identity |
| PairingRuns.RunsFollow | src/identity/introduction-session.ts:161-333 | an honest pairing has one way to go, of at most five moves |
| PairingRuns.HonestPairingsSucceed | src/identity/introduction-session.ts:161-333 | every honest pairing that can move no further has ended with matching sessions on both sides |
| SecureChannel.HandshakeSeedsRatchet | src/crypto/handshake.ts:243-297 | two completed ends with equal hashes start a ratchet session that is in step |
| SecureChannel.MessageKeysAreSecret | src/crypto/handshake.ts:278-297 | no message key of the session a handshake starts, however long it runs, can be computed from private keys that do not include both of one side |
| FieldPacking.PackFields | src/identity/introduction-session.ts:75-83 | the loop produces every field behind its length |
| FieldPacking.UnpackFields | src/identity/introduction-session.ts:85-98 | the loop returns the first fields of the frame, or fails exactly when it is truncated |
| FieldPacking.UnpackPack | src/identity/introduction-session.ts:75-98 | unpacking inverts packing, whatever follows, if and only if every field is shorter than 65536 bytes |
| Framing.ChunkFrame | mobile/src/frameChannel.ts:24-40 | the chunks are the frame's pieces behind index and count, or the right refusal |
| Framing.ChunksFit | mobile/src/frameChannel.ts:26-37 | for an MTU of at least 5 every chunk fits it |
| Framing.PiecesAreTheFrame | mobile/src/frameChannel.ts:31-38 | the payloads concatenate to the frame |
| Framing.ReassemblesAnyOrder | mobile/src/frameChannel.ts:78-106 | the chunks of a frame in any order, with repetitions before the last, come out as that frame with the last of them |
| Framing.PermutationCompletes | mobile/src/frameChannel.ts:85-92 | a permutation of the chunks completes exactly at its end |
| Framing.MessagesComeOutInOrder | mobile/src/frameChannel.ts:78-106 | messages sent one after another, the chunks of each in any order, come out complete, unaltered and in order |
| Framing.FrameChannel.constructor | mobile/src/frameChannel.ts:51-60 | a new channel holds nothing |
| Framing.FrameChannel.Receive | mobile/src/frameChannel.ts:68-72 | promise number t is resolved with message number t and frames and waiters are never both waiting |
| Framing.FrameChannel.Accept | mobile/src/frameChannel.ts:78-106 | one chunk changes only its sender's partial frame, and a completed frame goes to the oldest waiter or the end of the buffer |
| Framing.FrameChannel.Reset | mobile/src/frameChannel.ts:109-111 | only partial frames are dropped |
| Framing.JoinParts | mobile/src/frameChannel.ts:95-101 | the copying loop concatenates the parts |
| ChannelRuns.PeersApart | mobile/src/frameChannel.ts:78-106 | what one peer completes in a run depends on its own chunks only, whatever others send and whenever frames are asked for |
| ChannelRuns.MessagesArrive | mobile/src/frameChannel.ts:78-106 | messages a peer sends one after another are completed unaltered and in order, whatever comes between their chunks |
| ChannelRuns.RunChannel | mobile/src/frameChannel.ts:67-106 | through any run of chunks and requests, promise number t is resolved exactly when both it and frame number t exist, and then with that frame |
| ChannelRuns.PromisesReturnMessages | mobile/src/frameChannel.ts:67-106 | with one peer sending, however asking and arriving interleave, promise number t returns message number t |
| Fragments.FragmentEnvelope | src/envelope/fragment.ts:59-70 | the loop produces the fragments of the encoding, or nothing above 4096 of them |
| Fragments.FragmentAccepted | src/envelope/fragment.ts:44-57 | a fragment of an envelope is accepted exactly when its piece is at most 4096 bytes |
| Fragments.FragmentReassembler.constructor | src/envelope/fragment.ts:72-76 | a new reassembler is empty and its counters are right |
| Fragments.FragmentReassembler.RemoveEntry | src/envelope/fragment.ts:148-162 | removing a set keeps all counters equal to the sums they stand for |
| Fragments.FragmentReassembler.PurgeStale | src/envelope/fragment.ts:164-174 | exactly the sets past the age are removed, and counted |
| Fragments.FragmentReassembler.AddFragment | src/envelope/fragment.ts:83-146 | with counters instead of sums, it does what the specification over sums says, and keeps counters and limits; what it returns is what decoding makes of the joined bytes, and the set is gone even where they do not decode |
| Fragments.FragmentReassembler.OpenSet | src/envelope/fragment.ts:98-117 | a set is found, opened or refused by exactly the stated limits |
| Fragments.FragmentReassembler.Keep | src/envelope/fragment.ts:119-139 | a new fragment within the byte limits is stored and completes its set when it is the last |
| Fragments.FragmentReassembler.Store | src/envelope/fragment.ts:125-128 | the fragment is in its set and counted |
| Fragments.FragmentReassembler.HandOut | src/envelope/fragment.ts:132-142 | a full set is removed and its parts joined in order |
| Fragments.FragmentReassembler.TakeParts | src/envelope/fragment.ts:132-137 | no part of a full set is missing |
| Fragments.AddKeepsInv | src/envelope/fragment.ts:83-146 | any fragment keeps cached sizes right, all global and per-peer limits, and no complete set pending |
| Fragments.RoomForFirst | src/envelope/fragment.ts:98-123 | a first fragment is refused for want of room if and only if keeping it would break a limit |
| Fragments.RoomForOneMore | src/envelope/fragment.ts:119-123 | so is a further one |
| Fragments.Pigeonhole | src/envelope/fragment.ts:130-137 | as many distinct indices as pieces means no piece is missing, so the missing-part exit is never taken |
| Fragments.RoomByCounters | src/envelope/fragment.ts:98-123 | reading the counters answers exactly what summing would |
| FragmentDelivery.HoldsThroughout | src/envelope/fragment.ts:83-146 | after any schedule of fragments of any number of envelopes from any number of peers, each new one finding room when it comes, exactly the sets under way are pending, each with exactly the pieces that came since the last under its id was complete or given up for its age |
| FragmentDelivery.EachByItself | src/envelope/fragment.ts:83-146 | in any such schedule, however interleaved, a fragment returns its envelope's bytes if and only if it completes the pieces of its own peer and cut under way and no other set is under way under its id, and nothing otherwise |
| FragmentDelivery.LostExactly | src/envelope/fragment.ts:115-119 | a fragment that finds room is lost, changing nothing, if and only if it is there already or a set of another peer or count is under way under its id |
| FragmentDelivery.OthersHeldUp | src/envelope/fragment.ts:115-117 | within 30 seconds of the start of a set that is not completed, no fragment of another peer or count under its id returns anything, whichever of them come |
| FragmentDelivery.OnePieceHoldsUp | src/envelope/fragment.ts:115-117 | after one fragment from one peer both fragments of another peer's copy return nothing, though alone they return the envelope |
| FragmentDelivery.RoundTrip | src/envelope/fragment.ts:83-146 | a fragment that comes within 30 seconds of the first of its set, which met no other set under its id, the set not complete before, returns its bytes if and only if it is the last piece missing; nothing is asked of other envelopes, nor of other copies that come later |
| FragmentDelivery.EnvelopeRoundTrip | src/envelope/fragment.ts:59-146 | of an envelope cut by fragmentEnvelope, what comes back is its encoding |
| FragmentDelivery.EnvelopePieces | src/envelope/fragment.ts:59-70 | the pieces join to the encoding, and are all within 4096 bytes if and only if the chunk size or the encoding is |
| FragmentDelivery.SentAreAccepted | src/envelope/fragment.ts:44-70 | the decoder accepts every fragment of an envelope if and only if the chunk size or the encoding is at most 4096 bytes |
| FragmentDelivery.RefusedFragment | src/envelope/fragment.ts:44-70 | 5000 bytes over an MTU of 4999 are cut into two fragments, the first of which is refused |
| FragmentDelivery.FragmentsFit | src/envelope/fragment.ts:59-70 | all fragments of an envelope fit the MTU if and only if it is above 32, or there is nothing to send, or one byte with the numbers of the last fragment fits |
| ForwardQueue.StoreForwardQueue.constructor | src/storage/store.ts:31-38 | a new queue is empty and its counters are right |
| ForwardQueue.StoreForwardQueue.RemoveByKey | src/storage/store.ts:111-119 | an entry goes and its neighbor's count with it |
| ForwardQueue.StoreForwardQueue.Confirm | src/storage/store.ts:107-109 | acknowledging removes exactly that message |
| ForwardQueue.StoreForwardQueue.PurgeExpired | src/storage/store.ts:95-104 | exactly the envelopes invalid under the given age limit go, and their number is returned |
| ForwardQueue.StoreForwardQueue.Has | src/storage/store.ts:121-124 | an id is held exactly when an unexpired envelope has it |
| ForwardQueue.StoreForwardQueue.Offer | src/storage/store.ts:48-78 | store(): what is kept and which reason is given, with counters instead of counting |
| ForwardQueue.StoreForwardQueue.GetByDestination | src/storage/store.ts:140-146 | the unexpired envelopes for the hint, oldest first |
| ForwardQueue.StoreKeepsInv | src/storage/store.ts:48-78 | whatever is offered, at most 200 envelopes and 50 per neighbor are held |
| ForwardQueue.StoreKeepsOthers | src/storage/store.ts:48-78 | an offer removes only what expired, changes nothing else, and never replaces an envelope |
| ForwardQueue.StoreKeepsOrder | src/storage/store.ts:48-78 | what is held keeps its order and what is stored comes last |
| RouteTable.RoutingTable.constructor | src/routing/routing.ts:99-100 | a new table has no route |
| RouteTable.RoutingTable.LearnFromAdvertisement | src/routing/routing.ts:102-125 | each listed hint gets the route an advertisement gives it; an advertisement that does not verify changes nothing |
| RouteTable.RoutingTable.Validate | src/routing/routing.ts:127-140 | an existing route whose hint names the key becomes validated and bound; anything else changes nothing |
| RouteTable.RoutingTable.DemoteRoute | src/routing/routing.ts:142-146 | the route is expired, on probation and unbound |
| RouteTable.RoutingTable.PurgeDestination | src/routing/routing.ts:151-152 | the inner loop deletes exactly the expired candidates, and an empty destination |
| RouteTable.RoutingTable.PurgeExpired | src/routing/routing.ts:148-155 | exactly the expired routes go, and their number is returned |
| RouteTable.RoutingTable.LookupRoute | src/routing/routing.ts:157-178 | the single pass finds what the specification of lookup prescribes |
| RouteTable.LookupExact | src/routing/routing.ts:157-178 | lookup returns a neighbor if and only if it is the first highest-trust validated route whose binding matches the peer's current identity and epoch or, none of those left, the first highest-trust route on probation |
| RouteTable.LearnBindsNothing | src/routing/routing.ts:113-124 | an advertisement never creates a binding |
| RouteTable.LearnElsewhere | src/routing/routing.ts:113-124 | an advertisement touches only its sender's routes to the hints it lists |
| RelayObject.RelayNode.constructor | src/routing/routing.ts:239-240 | a new relay knows nobody and holds nothing |
| RelayObject.RelayNode.ExpirePendingAcks | src/routing/routing.ts:291-298 | exactly the overdue acknowledgements go and their routes are demoted in order |
| RelayObject.RelayNode.PurgeStaleRoutingState | src/routing/routing.ts:299-299 | acknowledgements and routes are purged, and no expired route is left |
| RelayObject.RelayNode.RecordPendingAck | src/routing/routing.ts:310-313 | at 500 the oldest makes room for the new one |
| RelayObject.RelayNode.ForwardOverTransport | src/routing/routing.ts:342-347 | one hop less to live on the wire; Data is awaited, unless the transport refused |
| RelayObject.RelayNode.TryNextHop | src/routing/routing.ts:405-409 | forwarded when there is a hop and it answers, else queued or dropped with the queue's reason |
| RelayObject.RelayNode.FindDirect | src/routing/routing.ts:405-405 | the first registered peer whose identity the hint names |
| RelayObject.RelayNode.SendEnvelope | src/routing/routing.ts:402-410 | state, transmissions and outcome of sendEnvelope |
| RelayObject.RelayNode.ProcessPendingAck | src/routing/routing.ts:412-426 | settled exactly when neighbor, hint and peer match, then binding, trust and pending acknowledgement change together |
| RelayObject.RelayNode.AdmitAck | src/routing/routing.ts:433-439 | which acknowledgements from neighbors pass, and the reason for the others |
| RelayObject.RelayNode.PassOn | src/routing/routing.ts:441-453 | delivered here, forwarded, queued or dropped, as prescribed |
| RelayObject.RelayNode.ReceiveEnvelope | src/routing/routing.ts:428-454 | state, transmissions, deliveries and outcome of receiveEnvelope, with sync and broadcast packets left to their own handlers |
| RelayObject.RelayNode.AcknowledgeMessage | src/routing/routing.ts:302-309 | sendAck: delivered to itself, sent without losing a hop, or queued |
| RelayObject.RelayNode.AttemptQueuedDelivery | src/routing/routing.ts:338-341 | queued envelopes for the hint are tried oldest first, and those sent leave the queue |
| RelayObject.RelayNode.HearAdvertisement | src/routing/routing.ts:326-337 | an advertisement is learned once, from a registered peer, and its destinations are tried |
| RelayObject.RelayNode.HasRouteTo | src/routing/routing.ts:180-182 | whether lookup finds a hop when trust does not count; the expired routes go |
| RelayObject.RelayNode.PurgeStaleRoutes | src/routing/routing.ts:284-284 | exactly the expired routes go, and their number is returned |
| RelayObject.RelayNode.PurgeStaleRoutingAdvertisements | src/routing/routing.ts:279-283 | exactly the advertisements seen longer ago than the given age are forgotten, and their number is returned |
| RelayObject.RelayNode.RegisterAuthenticatedPeer | src/routing/routing.ts:265-269 | the peer is known with its identity, the time as epoch and its session; a session without a name is refused and changes nothing |
| RelayObject.RelayNode.UnregisterAuthenticatedPeer | src/routing/routing.ts:271-271 | the peer is forgotten |
| RelayTrust.StepIsFair | src/routing/routing.ts:291-454 | whatever a relay is called with, trust does not fall, and trust plus awaited acknowledgements grows by no more than the Data handed over |
| RelayTrust.TrustIsEarned | src/routing/routing.ts:291-347 | in every reachable state, for each neighbor, trust plus awaited acknowledgements is at most the number of Data envelopes handed to it, and at most 500 are awaited |
| RelayTrust.TrustNeverFalls | src/routing/routing.ts:412-426 | trust in a neighbor never decreases along a run |
| TrustHistory.TrustCountsAnswers | src/routing/routing.ts:412-426 | in every run, trust in a neighbor is exactly the number of valid acknowledgements it returned, in time and while registered, of messages it was awaited for, signed by the destination each was for |
| TrustHistory.AnswerValidates | src/routing/routing.ts:412-426 | after such an acknowledgement the neighbor's live route to the destination is validated for five minutes and bound to the destination's key and the current session, the message is awaited no longer, and lookup returns a neighbor trusted at least as much; without a live route none is made |
| TrustHistory.HandedDataIsAnswered | src/routing/routing.ts:342-347 | data handed to a neighbor is awaited, so that an acknowledgement within thirty seconds counts |
| TrustHistory.AnswersAreSigned | src/envelope/envelope.ts:201-217 | what counts as an answer the destination has signed, about this very message |
| RelayForwarding.DeliveredExactly | src/routing/routing.ts:428-447 | an envelope is delivered here if and only if it is valid, for this relay and, if an acknowledgement, one that may pass; what may not pass is dropped |
| RelayForwarding.PassesOnExactly | src/routing/routing.ts:451-453 | a valid envelope for another goes to the next hop, one hop less and awaited if data, exactly when there is one and the transport accepts it, and else waits with its sender and time, or is dropped for the queue's reason |
| RelayForwarding.AckPassesOnExactly | src/routing/routing.ts:433-453 | the same of an acknowledgement that may pass, with the routes as they are once it is settled |
| RelayForwarding.BestRouteCarries | src/routing/routing.ts:451-452 | the first highest-trust validated route carries the envelope or, none being left, the first highest-trust one on probation |
| RelayForwarding.SendsExactly | src/routing/routing.ts:402-410 | what the relay sends goes to a direct peer if there is one, else along the route, and waits when there is neither or the transport refuses it |
| RelayForwarding.AcknowledgesExactly | src/routing/routing.ts:302-309 | an acknowledgement for the relay itself is delivered, any other is sent along the route without losing a hop, or waits |
| RelayForwarding.StaleGoesNowhere | src/envelope/envelope.ts:230-238 | a packet of another version, without hops, from more than a minute ahead or more than an hour old is dropped when received or sent, and no other is dropped for its header |
| RelayForwarding.HopIsRegistered | src/routing/routing.ts:157-178 | lookup chooses only registered peers, and a validated route only for the identity and session its binding was made with |
| RelayForwarding.UnregisteredIsNoHop | src/routing/routing.ts:271-271 | a peer that was unregistered is nobody's next hop |
| RelayForwarding.NewSessionUnbinds | src/routing/routing.ts:265-269 | after a new registration no route validated in an earlier session is chosen |
| RouteLearning.LearnGives | src/routing/routing.ts:102-125 | every listed hint gets a route, validated for five more minutes if it was, else on probation for thirty seconds, and a binding stays if and only if it was made in the current session |
| RouteLearning.AdvertisementGives | src/routing/routing.ts:326-337 | a new advertisement gives these routes, and lookup finds a hop for each hint, unless the route was validated and is not bound to the sender's current session: then it does not choose the sender |
| RouteLearning.AdvertisementEmptiesQueue | src/routing/routing.ts:326-341 | every unexpired envelope waiting for an advertised hint goes to the next hop there is now and leaves the queue when the transport accepts everything, and all others stay |
| RouteLearning.DeliversWaiting | src/routing/routing.ts:338-341 | so do those for one destination |
| RouteLearning.SentInOrder | src/routing/routing.ts:338-341 | they are sent in the order they are listed |
| RouteLearning.OldestFirst | src/storage/store.ts:140-146 | which is the order they were stored |
| RouteLearning.HeardOnce | src/routing/routing.ts:326-337 | an advertisement heard again changes nothing but what a purge does, whatever happens in between, as long as the record has room and purges spare it |
| RouteLearning.ForgottenCountsAgain | src/routing/routing.ts:279-283 | after a purge it counts again if and only if it was heard longer ago than the age |
| RouteLearning.OnlySignedCounts | src/routing/routing.ts:82-90 | only an advertisement signed by the advertiser it names, timely and well formed, from a registered peer changes more than a purge does |
| RouteLearning.EveryHopIsRegistered | src/routing/routing.ts:302-454 | whatever a relay is called with, it sends to registered peers only |
| RouteHistory.StepAccounts | src/routing/routing.ts:291-454 | a step creates a route only from an advertisement of that neighbor and hint, a binding only from a settled acknowledgement, and awaits only what it handed over |
| RouteHistory.BindingsAreEarned | src/routing/routing.ts:412-426 | every binding for a hint and neighbor came from an acknowledgement signed by a key hashing to the hint and returned by that neighbor, of an envelope for the hint handed to it before |
| RouteHistory.RoutesNeedAdvertisements | src/routing/routing.ts:102-125 | without a new advertisement a route that is gone stays gone and lookup never chooses it |
| RouteHistory.OverdueForgotten | src/routing/routing.ts:291-299 | a purge after the timeout forgets the route the awaited envelope went through |
| RouteHistory.TimedOutIsNotChosen | src/routing/routing.ts:291-299 | after an acknowledgement timeout the neighbor is not chosen for that hint until it advertises it again |
| RouteHistory.PurgeRoutingTwice | src/routing/routing.ts:299-299 | purging twice at one instant is purging once |
| RelayDelivery.DeliversOnlyItsOwn | src/routing/routing.ts:441-447 | no call makes a relay deliver a unicast envelope addressed to another |
| RelayDelivery.AckDeliveredOnlyIfAwaited | src/routing/routing.ts:433-439 | an acknowledgement reaches the listeners only if its message is awaited from that neighbor, was for the destination that signed and is not overdue; it is then awaited no longer |
| RelayDelivery.AckNotDeliveredTwice | src/routing/routing.ts:433-439 | a delivered acknowledgement that comes again, from any neighbor and after any calls, is refused, unless the message it names was handed over again |
| RelayDelivery.DeliveredAcksAnswerHandedData | src/routing/routing.ts:412-426 | in every run, a delivered acknowledgement is for a message handed to that neighbor for the destination that signed |
| RelayDelivery.DirectPeersComeFirst | src/routing/routing.ts:402-408 | an envelope for a registered peer goes to a peer with that identity, whatever the routing table says |
| RelayDelivery.DirectPeerIsFirst | src/routing/routing.ts:405-405 | of several peers with the hinted identity it is the one registered first |
| MeshAccounting.StepBalances | src/routing/routing.ts:302-454 | any call of a relay accounts for every envelope: kept, sent, delivered or dropped; and for every hop: left or made |
| MeshNetwork.BooksBalance | src/routing/routing.ts:302-454 | over every run of the network, copies put in equal copies in flight, queued, delivered and dropped; hops made and left never exceed hops put in; all queues keep their quotas |
| MeshNetwork.ExactlyOnePlace | src/routing/routing.ts:338-454 | an envelope put in once is at all times in exactly one place: in flight, in one queue, delivered, or dropped; exactly one envelope carries its id, and exactly one equals it in all but the TTL |
| MeshNetwork.CarrierIsOriginal | src/routing/routing.ts:338-454 | whatever is found under its id anywhere in the network is the envelope put in, but for the TTL |
| MeshNetwork.OneQueueOnly | src/storage/store.ts:48-78 | no two relays queue it |
| MeshNetwork.NoDuplicateArrives | src/storage/store.ts:56-59 | while it is in flight no queue holds it, so the queue never meets a duplicate |
| MeshNetwork.HopBound | src/routing/routing.ts:342-347 | an envelope sent with TTL T is transmitted at most T times, whatever the tables, queues and links do |
| MeshNetwork.AckHopBound | src/routing/routing.ts:302-309 | an acknowledgement is transmitted at most once more than its TTL |
| MeshDelivery.ArrivesAlongPath | src/routing/routing.ts:342-454 | an envelope sent along a path of relays that each have the next as next hop when it comes, with hops enough and neither lost nor refused, is on one of the path's links or delivered at its end, whatever else happens in the network |
| MeshDelivery.DeliveredAtPathEnd | src/routing/routing.ts:342-454 | when nothing of it is left in flight it has been delivered at the path's end |
| SyncProtocol.SyncIsCalls | src/routing/routing.ts:357-392 | receiving any packet, sync packets and whatever they carry included, does to a relay what a sequence of its other calls does, each a purge or the reception from the same neighbor of the packet or of an envelope inside it; but for sync packets they send the same, and they deliver and lose the same |
| SyncProtocol.InitiateCalls | src/routing/routing.ts:348-353 | initiateSync does to a relay at most what reading its queue does |
| SyncHistory.RunExpands | src/routing/routing.ts:348-454 | any run with sync packets is a run of other calls, each of them part of a call of the run by whose end all that was handed over before was handed over |
| SyncHistory.SyncTrustIsEarned | src/routing/routing.ts:291-454 | in every state reachable with sync packets, trust plus awaited acknowledgements is at most the number of Data envelopes handed over, and at most 500 are awaited |
| SyncHistory.SyncTrustNeverFalls | src/routing/routing.ts:412-426 | trust never decreases, whatever is synchronised |
| SyncHistory.SyncRoutesNeedAdvertisements | src/routing/routing.ts:387-391 | no sync packet makes a route, whatever it carries |
| SyncHistory.SyncBindingsAreEarned | src/routing/routing.ts:387-426 | with sync packets, every binding came from an acknowledgement signed by a key hashing to the hint and returned by that neighbor, by itself or inside a transfer, of an envelope for the hint handed to it by then |
| SyncHistory.SyncTimedOutIsNotChosen | src/routing/routing.ts:291-299 | after an acknowledgement timeout the neighbor is not chosen for that hint until it advertises it again, whatever it synchronises |
| SyncHistory.SyncDeliversOnlyItsOwn | src/routing/routing.ts:387-391 | no run delivers a unicast envelope addressed to another, what transfers carry included |
| SyncHistory.SyncAckNotDeliveredTwice | src/routing/routing.ts:433-439 | a delivered acknowledgement is refused when it comes again after any run with sync packets in which its message is not handed over again |
| SyncReplay.RefusedUnlessCounts | src/routing/routing.ts:357-368 | a sync packet from an unknown sender, sealed for another session or by another identity than the registered one, or handled before, is refused and changes nothing |
| SyncReplay.CountsOnce | src/routing/routing.ts:357-368 | a packet that was handled is refused when it comes again within ten minutes, from whomever and after any run, as long as the record has room for all packets that came |
| SyncAnswers.RefusedBeyondLimits | src/routing/routing.ts:369-388 | a summary or request is refused if and only if it has more than 512 entries or a malformed one, and a transfer of more than 128 envelopes is refused; what is refused changes nothing |
| SyncAnswers.SuppliesAllThatFits | src/routing/routing.ts:377-386 | a request is answered with as many of the first 128 envelopes held and asked for as fit 512 KiB, in the queue's order |
| SyncAnswers.AskedInOrder | src/storage/store.ts:150-156 | that is the order they were stored |
| SyncAnswers.TransferExactly | src/routing/routing.ts:387-391 | a transfer is received one envelope after another up to the first that does not decode or exceeds 512 KiB, what was received stays, and it is accepted if and only if all of it was |
| OrderedMaps.PutWithinExactly | src/routing/routing.ts:310-313 | what is remembered within a limit loses nothing but, at the limit, the oldest, and what is new comes last |
| SyncObject.SyncRelay.constructor | src/routing/routing.ts:234-234 | a new relay has seen no sync packet |
| SyncObject.SyncRelay.PurgeStaleSyncReplayRecords | src/routing/routing.ts:285-289 | exactly the records older than the given age go, and their number is returned |
| SyncObject.SyncRelay.RememberSync | src/routing/routing.ts:364-367 | at 2048 the oldest record makes room for the new one |
| SyncObject.SyncRelay.ListSummary | src/storage/store.ts:132-138 | ids and TTLs of the unexpired envelopes, in order, up to 512 |
| SyncObject.SyncRelay.GetByIds | src/storage/store.ts:150-156 | the unexpired envelopes with the given ids, in the queue's order |
| SyncObject.SyncRelay.SendSync | src/routing/routing.ts:374-374 | a message sealed under the session goes to the neighbor when the transport accepts it |
| SyncObject.SyncRelay.Initiate | src/routing/routing.ts:348-353 | state, transmission and result of initiateSync; without a session nothing happens |
| SyncObject.SyncRelay.FindMissing | src/routing/routing.ts:373-373 | the listed ids not held, up to 512, looked up one by one |
| SyncObject.SyncRelay.AnswerSummaryPacket | src/routing/routing.ts:369-376 | an oversized or malformed summary is refused, any other answered with a request for what is missing, if anything is |
| SyncObject.SyncRelay.AnswerRequestPacket | src/routing/routing.ts:377-386 | an oversized or malformed request is refused, any other answered with the envelopes held within 128 envelopes and 512 KiB |
| SyncObject.FillTransfer | src/routing/routing.ts:382-383 | the longest prefix whose encodings fit 512 KiB |
| SyncObject.SyncRelay.AcceptTransfer | src/routing/routing.ts:387-391 | the envelopes of a transfer are received one by one up to the first that breaks the byte limit or does not decode, and those received stay received |
| SyncObject.SyncRelay.HandleSync | src/routing/routing.ts:357-392 | state, transmissions, deliveries and outcome of handleSyncPacket: session, decryption, authorization and replay check, then the three kinds |
| SyncObject.SyncRelay.ReceiveAny | src/routing/routing.ts:428-431 | receiveEnvelope with sync packets handled |
| SyncRounds.SenderKeepsQueue | src/routing/routing.ts:348-386 | the three handlers composed to a round leave the sender's queue unchanged but for expiry, and the rest of it as a purge of its routing state does or untouched |
| SyncRounds.RoundStores | src/routing/routing.ts:348-392 | the same round changes nothing of the neighbor but its routing state, which is purged, and its queue, into which it offers exactly what was transferred |
| SyncRounds.UnlistableStopsRound | src/routing/routing.ts:369-375 | a summary is refused if and only if the sender holds an unexpired envelope whose id is not 16 bytes or whose TTL exceeds the safe integers, and then the round transfers nothing |
| SyncRounds.UnlistableStopsAll | src/routing/routing.ts:369-375 | as long as it does, no number of rounds transfers anything |
| SyncRounds.UnlistableIsQueued | src/routing/routing.ts:453-453 | any valid Data envelope to be passed on is queued, whatever the length of its id |
| SyncRounds.TransfersOnlyMissing | src/routing/routing.ts:369-386 | a round transfers only envelopes the sender holds and the neighbor does not |
| SyncRounds.NoHopAppears | src/routing/routing.ts:291-299 | purging the routing state never makes a next hop appear where there was none |
| SyncRounds.RoundProgress | src/routing/routing.ts:369-391 | a round takes nothing unexpired from the neighbor, leaves it unchanged when it holds all or has no room, and otherwise gives it envelopes it lacked |
| SyncRounds.LackingShrinks | src/routing/routing.ts:348-392 | over rounds at any instants, what the neighbor lacks never grows and shrinks with every round until it is nothing or a round finds the neighbor full |
| SyncRounds.SyncConverges | src/routing/routing.ts:348-392 | over rounds at any instants, if none finds the neighbor full, it holds everything the sender still has after as many rounds as it lacked envelopes |
| BroadcastFlood.BroadcastRelay.SendToNeighbors | src/routing/routing.ts:398-398 | one frame per accepting neighbor but the excepted one, in order |
| BroadcastFlood.BroadcastRelay.Broadcast | src/routing/routing.ts:322-325 | nothing is sent unless content and budget allow a message; then it goes to every neighbor and is not marked as seen |
| BroadcastFlood.BroadcastRelay.HandleBroadcastPacket | src/routing/routing.ts:393-401 | a relay marks what it sees for the first time, and delivers and forwards it with one hop less if it is authentic and within its origin's budget, which it uses up |
| BroadcastFlood.DeliversOnceAndNear | src/routing/routing.ts:393-401 | no relay delivers a broadcast twice, and only relays within TTL hops of the origin deliver it |
| BroadcastFlood.FloodEnds | src/routing/routing.ts:322-401 | the frames of one broadcast, each handled once, number at most the origin's degree plus the sum of all degrees |
| FloodCoverage.HandlesExactly | src/routing/routing.ts:393-401 | a relay that sees an authentic broadcast first, with hops left, delivers it and sends it with one hop less to exactly the neighbors its transport reaches but the sender; anything else goes nowhere |
| FloodCoverage.EveryoneDelivers | src/routing/routing.ts:322-401 | when nothing of a broadcast was lost or refused and none is in flight, every relay the origin reaches has delivered it, if its TTL is at least the number of relays |
| FloodCoverage.NeighborsSee | src/routing/routing.ts:393-401 | with any TTL, every neighbor of a relay that delivered it with hops left beyond the next has seen it, but perhaps the origin |
| FloodCoverage.LongerPathFirst | src/routing/routing.ts:393-401 | four relays and a run in which a relay two hops from the origin misses a broadcast with TTL 2 |
| BroadcastBudget.BroadcastLimiter.PurgeOne | src/broadcast/broadcast.ts:54-60 | exactly the windows that have run out are deleted |
| BroadcastBudget.BroadcastLimiter.PurgeRateWindows | src/broadcast/broadcast.ts:54-60 | both maps are purged |
| BroadcastBudget.BroadcastLimiter.CreateBroadcastMessage | src/broadcast/broadcast.ts:62-70 | an authentic message when content and budget allow, else the right error and budget effect |
| BroadcastBudget.BroadcastLimiter.VerifyBroadcastMessage | src/broadcast/broadcast.ts:72-84 | only authentic messages use their origin's budget, and pass exactly when it allows |
| BroadcastBudget.PurgesNeverChangeAnAnswer | src/broadcast/broadcast.ts:42-60 | runs with the same requests get the same answers wherever purges are inserted |
| BroadcastBudget.AtMostInAnyInterval | src/broadcast/broadcast.ts:42-52 | no half-open interval of 60 seconds contains more than 39 accepted broadcasts of one origin |
| BroadcastBudget.BoundIsReached | src/broadcast/broadcast.ts:42-52 | a run in which 39 are accepted within 60 seconds |
| BroadcastBudget.WindowCountsExactly | src/broadcast/broadcast.ts:42-52 | wherever purges lie, the count of a window still there is exactly what was accepted since it opened, at most 20 |
| SignedFormats.FormatsInjective | src/identity/identity.ts:65-83 | across device link, revocation, session, acknowledgement, broadcast, advertisement and data formats, equal signed bytes mean the same kind and the same fields |
| SignedFormats.HeaderShares | src/envelope/envelope.ts:69-78 | two headers have equal associated data if and only if version and type agree modulo 256, timestamps modulo 2^64, and id and hint end to end |
| SignedFormats.SessionNeedsLengths | src/identity/identity.ts:75-83 | without fixed lengths two session statements share their signed bytes |
| SealedEnvelope.CreateAuthenticatedDataEnvelope | src/envelope/envelope.ts:104-129 | the envelope carries the header it is sealed under, and the ratchet advances by one message |
| SealedEnvelope.OpenAuthenticatedDataEnvelope | src/envelope/envelope.ts:146-150 | opens as the ratchet decides on the header's associated data; a failure leaves the ratchet as it was |
| SealedEnvelope.OpensExactly | src/envelope/envelope.ts:104-150 | in any run, an unopened sealed ciphertext under any routing header and any ratchet header opens to its plaintext if and only if the routing header is of a data envelope and authenticates the same, the ratchet header is the same as encoded and passes the gap checks, and the message's chain was not left before it |
| SealedEnvelope.FieldsAuthenticated | src/envelope/envelope.ts:69-78 | with ids of one length, authenticating the same is equality of every field but the TTL |
| SealedEnvelope.MovedByteOpens | src/envelope/envelope.ts:69-78 | with a byte moved from the hint to the id an envelope is under another id for another destination, and opens as the original would |
| SealedDelivery.RelayedOpens | src/routing/routing.ts:338-454 | of a sealed envelope sent once into a network of relays, whatever is found under its id anywhere opens to the plaintext, if and only if the ratchet accepts its number and did not leave its chain before it |
| SealedDelivery.RelayedOpensInRange | src/routing/routing.ts:338-454 | with header numbers in range: if and only if the gap limit allows it |

## Left out

- Cryptographic arithmetic, random generation and the CBOR library: symbolic terms, parameters and encoding lengths stand for them.
- Header numbers and clocks are integers. Fractions, NaN and infinities, which a CBOR decoder can return too, and the loss of precision above 2^53 are not modelled.
- A party's own message counters are unbounded numbers, encoded modulo 2^32 and, for the nonce, modulo 2^64.
- Handshake: the prologue is empty, as in the source, and key pairs are names.
- ScannedPeerIsAuthentic: assumes that the scanned identity signs responder statements only in its own completed responder runs; unforgeability is that assumption. RespondingPeerIsAuthentic assumes the same of initiators.
- Validation of introduction JSON, peer trust records, sealed identities, file and voice messages: plain input checks, or easier versions of what is here.
- Transports, sockets, mobile screens, node processes and error reporting.
- A send is one atomic step with one answer; how fragments of a partly failed send travel on, and a transport that calls back into the relay during a send, are not modelled.
- Neighbor ids are taken to be non-empty.
- Offer: the integrity hash of a stored envelope is not modelled.
- ExactlyOnePlace: counts a sync or broadcast packet as delivered once its own handler has it; what those handlers send is treated in SyncRounds and BroadcastFlood, not in the network's books. Sync resends stored envelopes without lowering their TTL, so no hop bound holds across it.
- ReceiveEnvelope: sync and broadcast packets end in an outcome of their own here; `SyncObject.SyncRelay.ReceiveAny` goes on with the former, `BroadcastFlood.BroadcastRelay.HandleBroadcastPacket` with the latter.
- RegisterAuthenticatedPeer: the lengths of identity and session keys, which are names here, are not checked.
- HandleSync: payloads whose CBOR holds values of the wrong type, at which the program throws, are not told apart from packets that do not open.
- FirstMessageIsAuthentic: an attacker can seal under keys he can compute and repeat ciphertexts of honest runs, but learns keys in no other way; ReplyIsAuthentic assumes the same.
- ForwardSecrecy: assumes that the session's root key cannot be computed from the private keys that are known, which InitiatorKeys decides.
- ArrivesAlongPath: the envelope is no acknowledgement, sync packet or broadcast, and its id is put in once.
- CountsOnce: how long a packet is remembered when more than 2048 come within ten minutes is said by PutWithinExactly only; HeardOnce likewise.
- SyncConverges: no packet of a round is lost, and the neighbor can only carry the envelopes (it is not their destination and has no route for them); an id both queues hold names messages of one age, the sender holds nothing that cannot be listed, and nonces are new.
- DeliversOnceAndNear: links do not change during the run, frames with a raised TTL are not forged, and seen records are not purged. EveryoneDelivers assumes the same.
- FloodEnds: over runs, whether a broadcast passes its signature and rate checks is an answer given with each arrival; HandleBroadcastPacket computes it.
- RoundTrip: speaks of schedules in which every new piece finds room beside the envelopes under way, and in which fragments of one peer, id and count are pieces of one cut; what a refusal for want of room drops, and what fragments that disagree do, is said by AddFragment only.
- FragmentsFit: speaks of encodings shorter than 2^32 bytes, or 2^24 where the encoder tags byte strings.
- A validated route need not have a binding: a later advertisement in another session clears it. Lookup skips such a route, and LookupExact says so.
- CarrierIsOriginal: as for ExactlyOnePlace, the id is put into the network once and sync packets are not opened; RelayedOpens rests on it.
