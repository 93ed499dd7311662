# An end-to-end encrypted chat: sessions, rekeying and the relay

A Dafny model of a two-party encrypted chat and of the relay that carries it, with proofs about every run of it.

- **Sessions.** `CryptoSession` seals and opens envelopes, remembers accepted nonces per epoch, and rotates its chained
  master secret by a rekey handshake. `ClientSession` drives it: it accepts the peer's key, seals lines, asks for a rekey
  after a number of lines, and answers requests by staging the rotation, sealing the reply at the old epoch and committing.
- **The relay.** One connection task per socket registers a client in the router, routes events into outboxes, and
  flushes outboxes into bounded per-connection channels. Each critical section is one step; steps interleave freely.

Cryptography is symbolic. A key agreement is an unordered pair of secrets (section 6.1 of RFC 7748), key derivation is a
free constructor (RFC 5869), and a sealed ciphertext opens only under its own key, nonce and associated data (section 2.8
of RFC 8439). The key, nonce and associated data of the model are structured values; `Contexts` shows that the byte
strings the program feeds to those primitives determine exactly these values.

The network of the two-party results drops, delays, duplicates, reorders, alters every field and injects envelopes of its
own. It knows every secret, ephemeral ones included, except the two long-term ones. Message ids, rekey ids and ephemeral
secrets are arbitrary: no result relies on their freshness.

## Layout

| file | contents |
|---|---|
| `Types`, `Contexts`, `Events` | identities, byte contexts, symbolic cryptography and message types |
| `Crypto`, `CryptoSessions` | the session as functions on values, and the object that updates its fields |
| `Clients`, `ClientSessions` | the client session, likewise |
| `SessionRuns`, `ClientRuns` | one session, one client: every sequence of calls |
| `PairInvariant`, `Conversation` | two parties and the hostile network: the invariant, then the guarantees |
| `Fifo` | two parties over lossless ordered channels: exactly which lines are lost |
| `Bootstrap` | the key exchange, and what is said before both sides are ready |
| `Router`, `RelayServer` | the router, and the relay's calls one at a time |
| `Relay`, `RelayOwnership`, `RelayConservation`, `RelayBatches`, `RelayEviction`, `RelayClosing`, `RelayOrder`, `RelayDisorder`, `RelayRefinement`, `RelayProgress` | the relay's steps, interleaved |
| `EndToEnd` | what a client emits, at the relay |

## Where the code departs from its documents or from what one would expect

The model follows the code.

- A key is always derived from the current master (`crates/chat-core/src/crypto.rs:188`), so after a rotation an envelope
  of the previous epoch passes the epoch window but does not open; `docs/ARCHITECTURE.md:99` and
  `docs/superpowers/specs/rekey-design.md:117-120` say that it does. `Conversation.PreviousEpochIsRefused` gives the run,
  `Conversation.OpeningCharacterised` the exact condition.
- A response with an unknown id leaves the handshake pending (`crates/chat-core/src/crypto.rs:258-264`);
  `docs/superpowers/specs/rekey-design.md:142-143` says it aborts. `ClientRuns.UnknownResponseIsRefused` gives the outcome
  at such a response, `ClientRuns.PendingEndsIffAnswered` the exact condition under which a pending handshake ends.
- When sealing the reply fails, the staged rotation stays (`crates/chat-client/src/session.rs:194-195`).
  `Conversation.JamHappens` shows that this is reachable, `Conversation.StagedIffJammed` exactly when it happens.
- A slow connection is evicted by client id (`crates/chat-server/src/ws.rs:432`). If the client has reconnected meanwhile,
  its new connection loses its handle instead, and with the last sender of its close channel dropped it is closed
  (`crates/chat-server/src/ws.rs:202-209`, `235`) although it refused nothing. `RelayClosing.StaleFlushClosesNewConnection`
  gives the interleaving, `RelayEviction.EvictionKeepsAttachedIff` the exact condition for one eviction and
  `RelayEviction.CarefulIffAttachedThroughout` for whole runs. No connection is left hanging without its handle:
  `RelayClosing.LostConnectionIsClosed`.
- A ready client stops announcing its key (`crates/chat-client/src/main.rs:203-205`), also to a peer whose pin refuses it
  (`crates/chat-client/src/session.rs:99-103`). `Bootstrap.MismatchedPinDeafens` gives the run,
  `Bootstrap.DeafStaysDeaf` that it stays so, `Bootstrap.TakingAKeyMakesReadyIff` and `Bootstrap.ReadySideIsBeingHeard` the
  exact condition.
- Locks are released between draining and sending (`crates/chat-server/src/ws.rs:409-428`), so two flushes for one
  connection may send in the other order. `RelayEviction.FlushesCanReorder` gives a reachable interleaving,
  `RelayDisorder.FlushCanMisorderIff` the exact condition for one flush and `RelayDisorder.OrderlyIffNeverExposed` for whole
  runs.

## Model

| member | source | states |
|---|---|---|
| Types.ParseClientId | crates/chat-core/src/types.rs:47-66 | parsing succeeds exactly on the allowed ids and never changes the text; the exact error for each other input |
| Types.AllowedByCodePoint | crates/chat-core/src/types.rs:70-72 | exactly the ASCII digits and letters, minus, full stop and underscore are allowed |
| Contexts.SessionInfoIdentifiesPair | crates/chat-core/src/crypto.rs:401-411 | two session infos are equal if and only if they are for the same two ids, in either order |
| Contexts.KeyInfoIdentifiesPairAndEpoch | crates/chat-core/src/crypto.rs:187-193 | the key-derivation info is symmetric in the ids and injective in (unordered pair, epoch) |
| Contexts.NoncePrefixInputIdentifiesDirection | crates/chat-core/src/crypto.rs:413-419 | the nonce-prefix input determines sender and recipient in order |
| Contexts.NonceLayoutInjective | crates/chat-core/src/crypto.rs:334-337 | the 24 nonce bytes determine prefix and counter |
| Contexts.AssociatedDataInjective | crates/chat-core/src/crypto.rs:376-399 | the associated-data text determines sender, recipient, message id and epoch |
| Contexts.SessionInfoPositions | crates/chat-core/src/crypto.rs:401-411 | label, zero, the id first in dictionary order, zero, the other id, byte by byte |
| Contexts.NoncePrefixPositions | crates/chat-core/src/crypto.rs:413-419 | label, zero, sender, zero, recipient, byte by byte |
| Contexts.KeyInfoPositions | crates/chat-core/src/crypto.rs:187-193 | the session info, then the epoch in four bytes that read back most significant first |
| Contexts.NonceLayoutPositions | crates/chat-core/src/crypto.rs:334-337 | sixteen prefix bytes, then the counter in eight bytes that read back most significant first |
| Contexts.AssociatedDataLayout | crates/chat-core/src/crypto.rs:376-399 | the JSON object with version 1, sender, recipient, message id and the epoch in decimal, in this order |
| CryptoSessions.NonceTracker.MarkSeen | crates/chat-core/src/nonce.rs:13-19 | a nonce is accepted the first time only, and remembered |
| CryptoSessions.CryptoSession.constructor | crates/chat-core/src/crypto.rs:79-101 | a new session starts at epoch 0 under the agreement of the two keys |
| CryptoSessions.CryptoSession.NextNonce | crates/chat-core/src/crypto.rs:328-338 | the counter advances by one, or refuses at the 64-bit limit and stays |
| CryptoSessions.CryptoSession.Encrypt | crates/chat-core/src/crypto.rs:121-147 | the object follows the sealing function, changing only the counter |
| CryptoSessions.CryptoSession.Decrypt | crates/chat-core/src/crypto.rs:149-185 | the object follows the opening function: peer, window, authentication, replay, in this order; refusals change nothing |
| CryptoSessions.CryptoSession.StartRekey | crates/chat-core/src/crypto.rs:204-222 | a handshake starts unless one is pending, in which case nothing changes |
| CryptoSessions.CryptoSession.HandleSessionPayload | crates/chat-core/src/crypto.rs:227-274 | a request is staged, a matching response rotates, everything else is refused without effect |
| CryptoSessions.CryptoSession.CommitStagedRekey | crates/chat-core/src/crypto.rs:277-285 | the staged master is applied once, or the call is refused |
| CryptoSessions.CryptoSession.ApplyNextMaster | crates/chat-core/src/crypto.rs:300-307 | one rotation: new master, next epoch, replay sets of the last two epochs only |
| SessionRuns.PruningIsInvisible | crates/chat-core/src/crypto.rs:300-307 | over every sequence of calls, each reply equals that of a session that remembers all accepted pairs forever |
| SessionRuns.AtMostOnce | crates/chat-core/src/crypto.rs:154-184 | over every sequence of calls, no (epoch, nonce) pair yields plaintext twice |
| SessionRuns.NoncesNeverRepeat | crates/chat-core/src/crypto.rs:328-338 | over every sequence of calls, sealed envelopes carry pairwise different 24-byte nonces, whatever the prefix hash |
| SessionRuns.SealRefusesExactlyAtLimit | crates/chat-core/src/crypto.rs:328-332 | sealing fails if and only if the counter is used up, and then changes nothing |
| SessionRuns.DirectionsNeverCollide | crates/chat-core/src/crypto.rs:413-425 | with a prefix hash that separates the two inputs, the two directions never share a nonce |
| SessionRuns.SessionStaysBound | crates/chat-core/src/crypto.rs:79-101 | over every sequence of calls a session keeps its two ids, and info and nonce prefix are those of these ids |
| SessionRuns.FreshKeysBindIds | crates/chat-core/src/crypto.rs:85-88 | keys of two new sessions are equal if and only if epoch, unordered id pair and long-term agreement are |
| SessionRuns.KeysBindIds | crates/chat-core/src/crypto.rs:187-199 | keys of any two sessions are equal if and only if epoch, unordered id pair and master are |
| SessionRuns.SealedFields | crates/chat-core/src/crypto.rs:121-147 | every field of a sealed envelope, the given message id included, and what its ciphertext is sealed with |
| SessionRuns.OpeningOutcome | crates/chat-core/src/crypto.rs:149-185 | the exact outcome of opening any envelope whatever, each refusal without effect |
| SessionRuns.SealOpenRoundTrip | crates/chat-core/src/crypto.rs:121-185 | the other end opens a sealed envelope to its payload, and no envelope with the same ciphertext and another header |
| ClientSessions.ClientSession.constructor | crates/chat-client/src/session.rs:32-43 | a new client has no peer key and no session |
| ClientSessions.ClientSession.SetAutoRekeyAfter | crates/chat-client/src/session.rs:47-49 | only the threshold changes |
| ClientSessions.ClientSession.ExpectPeerFingerprint | crates/chat-client/src/session.rs:53-55 | only the pin changes |
| ClientSessions.ClientSession.EncryptPayload | crates/chat-client/src/session.rs:151-162 | the object follows the sealing function of the client |
| ClientSessions.ClientSession.StartRekey | crates/chat-client/src/session.rs:141-149 | the handshake is started before its request is sealed, and stays pending if sealing fails |
| ClientSessions.ClientSession.EncryptLine | crates/chat-client/src/session.rs:120-138 | the object follows the line function: chat first, then the count and a request if due |
| ClientSessions.ClientSession.CountSealedLine | crates/chat-client/src/session.rs:125-135 | the count grows by one; a request is appended exactly when due and none is in progress |
| ClientSessions.ClientSession.HandleEncryptedMessage | crates/chat-client/src/session.rs:164-221 | the object follows the function on every payload kind and every error |
| ClientSessions.ClientSession.HandlePayload | crates/chat-client/src/session.rs:174-220 | the object follows the function on each kind of authentic payload |
| ClientSessions.ClientSession.AnswerRekeyRequest | crates/chat-client/src/session.rs:179-201 | stage, seal the reply at the old epoch, commit, with each failure leaving what was done so far |
| ClientSessions.ClientSession.CompleteRekey | crates/chat-client/src/session.rs:202-219 | completion rotates, restarts the count and reports the new epoch |
| ClientSessions.ClientSession.HandleEvent | crates/chat-client/src/session.rs:81-118 | the first acceptable key opens the session; later keys are ignored or refused |
| ClientRuns.KeyIsSettledOnce | crates/chat-client/src/session.rs:81-112 | whatever arrives: ready exactly when a key is stored, and the key satisfies the pin; from then on the key never changes and the session is never set up again: epoch and counter never go back, and the master is the earlier one with one link per rotation since |
| ClientRuns.ReadyIffAcceptable | crates/chat-client/src/session.rs:83-112 | a client without a key becomes ready if and only if the event announces its peer's key to it and fits the pin, and then with that key |
| ClientRuns.AnnouncementOutcome | crates/chat-client/src/session.rs:83-112 | the exact answer to every key announcement: wrong sender or recipient, equal key, other key, pin mismatch, accepted |
| ClientRuns.OtherEventsChangeNothing | crates/chat-client/src/session.rs:113-117 | relay control events, and envelopes before the key, change nothing |
| ClientRuns.KeyIsFirstAcceptable | crates/chat-client/src/session.rs:81-112 | over every sequence of calls the stored key is that of the first acceptable announcement |
| ClientRuns.ClientStaysBound | crates/chat-client/src/session.rs:104-109 | over every sequence of calls the session is bound to the client's own id and its peer's |
| ClientRuns.CounterIsLinesSinceCompletion | crates/chat-client/src/session.rs:125-127 | over every history the counter is the number of lines sealed since the last self-initiated completion, and zero without a threshold |
| ClientRuns.LineOutcome | crates/chat-client/src/session.rs:120-138 | after any history, the exact outcome of a line: chat first under the first drawn id, a request under the second exactly when a threshold is set and reached with no handshake in progress, and no failure other than a missing key or an exhausted counter |
| ClientRuns.RekeyOutcome | crates/chat-client/src/session.rs:141-149 | after any history, the exact outcome of asking for a rekey, with the drawn message id, handshake id and ephemeral key |
| ClientRuns.PendingEndsIffAnswered | crates/chat-core/src/crypto.rs:253-271 | whatever a client is asked to do or receives, its pending handshake ends if and only if a response with its id opens |
| ClientRuns.PendingUntilAnswered | crates/chat-core/src/crypto.rs:204-271 | over every sequence of calls none of which answers it, the handshake stays pending as it was |
| ClientRuns.UnknownResponseIsRefused | crates/chat-core/src/crypto.rs:253-264 | a response to any other handshake fails as unknown and changes nothing but the replay set |
| ClientRuns.PlaintextAtMostOnce | crates/chat-client/src/session.rs:164-172 | over any calls, repeated key announcements and rotations included, no (epoch, nonce) pair yields plaintext twice |
| PairInvariant.UnlocksIffCurrent | crates/chat-core/src/crypto.rs:187-199 | an envelope of the peer authenticates if and only if it was sealed at the receiver's present epoch |
| PairInvariant.OpenedIsSent | crates/chat-core/src/crypto.rs:149-185 | whatever opens, from a network that alters and injects, is field for field an envelope the peer sent at this epoch |
| PairInvariant.ActKeepsPair | crates/chat-client/src/session.rs:120-221 | every user action and every delivery keeps the two-party invariant |
| Conversation.KeyAgreement | crates/chat-core/src/crypto.rs:204-307 | in every run equal epochs mean equal keys; otherwise one side is exactly one chain step ahead and the other still has that handshake pending |
| Conversation.KeysBelongToThePair | crates/chat-core/src/crypto.rs:187-199 | in every run both sessions are bound to the two ids, and share no key with a session of any other pair |
| Conversation.OpeningCharacterised | crates/chat-core/src/crypto.rs:149-199 | the fate of every envelope the peer sent: opens on first delivery if and only if sealed at the present epoch; otherwise the exact error, with the session unchanged |
| Conversation.PreviousEpochIsRefused | crates/chat-core/src/crypto.rs:154-177 | a run in which a first-delivered line inside the epoch window fails to authenticate |
| Conversation.ReflectionNeedsEqualIds | crates/chat-core/src/crypto.rs:149-152 | a session opens its own envelope if and only if it talks to itself |
| Conversation.NoInvention | crates/chat-core/src/crypto.rs:121-185 | in every run each accepted envelope was sent by the peer, no pair is accepted twice, and reported texts map injectively into the peer's lines |
| Conversation.PendingWaits | crates/chat-core/src/crypto.rs:237-271 | while a handshake is pending, an opened reply takes it to the peer's epoch and master, and nothing else changes epoch, master or handshake |
| Conversation.ReplyCompletes | crates/chat-client/src/session.rs:202-219 | the first arrival of a reply, however late, completes the handshake and brings both sides to one epoch and master |
| Conversation.RequestIsAnswered | crates/chat-client/src/session.rs:179-201 | the exact outcome of a first-delivered request: refused in progress, stuck without a nonce, or answered at the pre-rotation epoch under the drawn id with the drawn ephemeral key, which the new master is made of |
| Conversation.StagedIffActJams | crates/chat-client/src/session.rs:179-201 | after any action a rotation is staged if and only if one was, or the action opened a request at a free side without a nonce left |
| Conversation.StagedIffJammed | crates/chat-client/src/session.rs:192-195 | in every run, a rotation is left staged between calls if and only if some request reached that side while it was free and its counter exhausted |
| Conversation.JamHappens | crates/chat-client/src/session.rs:194-195 | a run that leaves a rotation staged |
| Conversation.CrossingIsAbsorbing | crates/chat-core/src/crypto.rs:204-270 | once both sides wait on each other at one epoch, no continuation rotates either or completes either handshake |
| Conversation.CrossedChatStillOpens | crates/chat-core/src/crypto.rs:149-185 | after a crossing every line of that epoch still opens on first delivery |
| Conversation.CrossingHappens | crates/chat-core/src/crypto.rs:204-222 | two requests before either arrives produce a crossing |
| Conversation.NoncesAreUnique | crates/chat-core/src/crypto.rs:121-147 | in every run no two envelopes of a side carry the same 24 nonce bytes, whatever the prefix hash; nor do envelopes of the two sides, with a hash that separates the directions |
| Conversation.OneRequestPerEpoch | crates/chat-core/src/crypto.rs:204-222 | in every run each side seals at most one request per epoch, and no reply at that epoch |
| Fifo.ExactLoss | crates/chat-client/src/session.rs:120-221 | over lossless ordered channels, after any run each side has reported exactly the lines it took except those sealed after an answered request and before the sender's rotation, once each and in order |
| Fifo.LineIsRefusedIffLost | crates/chat-core/src/crypto.rs:149-185 | at delivery a line is refused, without effect, if and only if it is such a line |
| Fifo.ResponderLosesNothing | crates/chat-client/src/session.rs:179-201 | the side that answers a handshake loses none of its lines of that epoch |
| Bootstrap.ReadySideIsBeingHeard | crates/chat-client/src/main.rs:67-175 | however announcements, retries, deliveries and talk interleave, a ready side has the real key, and if the other is not ready and no pin stands against it, the ready side's key is on its way |
| Bootstrap.AnnouncesExactlyWhen | crates/chat-client/src/main.rs:67-175 | a side announces its own key when it comes online, at each tick while unready and when it becomes ready, and never else |
| Bootstrap.TakingAKeyMakesReadyIff | crates/chat-client/src/session.rs:83-112 | an announcement an unready side takes makes it ready if and only if its pin, if set, is the real key's |
| Bootstrap.PinnedElsewhereStaysUnready | crates/chat-client/src/session.rs:83-112 | in every run a side pinned to another key stays unready |
| Bootstrap.MismatchedPinDeafens | crates/chat-client/src/main.rs:76-79 | a run that leaves one side ready and silent and the pinned one with nothing to take |
| Bootstrap.DeafStaysDeaf | crates/chat-client/src/main.rs:203-209 | however such a run goes on, nothing more reaches the pinned side and it stays unready |
| Bootstrap.ExchangeIsAConversation | crates/chat-client/src/main.rs:74-175 | whoever is ready first and whatever is said before the other one is, once both are ready they are in a state reachable from the start of the two-party protocol |
| Bootstrap.UnreadyIsSilent | crates/chat-client/src/session.rs:151-171 | in every run a side that is not ready has sent, accepted and shown nothing |
| Router.InMemoryRouter.Connect | crates/chat-server/src/router.rs:13-20 | a new client gets an empty outbox; a present one is refused without effect |
| Router.InMemoryRouter.Disconnect | crates/chat-server/src/router.rs:22-28 | the client and its outbox go, or the call is refused without effect |
| Router.InMemoryRouter.Route | crates/chat-server/src/router.rs:30-48 | the event is queued for its recipient and then its Ack for the sender, or refused for the first applicable reason without effect |
| Router.RoutedIffHonest | crates/chat-server/src/router.rs:30-76 | an event is routed if and only if it names its connection as author and both it and its recipient are connected; the exact error otherwise |
| Router.InMemoryRouter.DrainOutbox | crates/chat-server/src/router.rs:50-56 | the whole outbox is returned and emptied |
| Router.RouterRefinesLog | crates/chat-server/src/router.rs:12-91 | for each live connection, everything drained then everything queued is the accepted log since it connected, as that client sees it |
| Router.LogIsSigned | crates/chat-server/src/router.rs:59-72 | over every sequence of calls each accepted event names its own connection as author |
| Router.NothingIsForged | crates/chat-server/src/router.rs:12-76 | over every sequence of calls whatever is queued or drained was accepted from its author's own connection, or acknowledges the client's own envelope |
| RelayOwnership.ExactlyOneOwner | crates/chat-server/src/ws.rs:305-342 | in every interleaving each id in the router has exactly one owning task, and each id in the connection map is in the router under its owner's handle |
| RelayConservation.ConservedAlways | crates/chat-server/src/ws.rs:344-437 | every step keeps each queued instance in exactly one place, at one position, unaltered |
| RelayBatches.EachInstanceInOnePlace | crates/chat-server/src/ws.rs:344-437 | in every interleaving each instance ever queued is, as it was queued, in exactly one of: an outbox, a batch exactly one flush holds, a batch cut with a connection sent a close signal, a channel, a removed outbox |
| RelayBatches.NumbersAreKept | crates/chat-server/src/router.rs:30-48 | what was queued under a serial number stays under it |
| RelayBatches.BatchesArriveAsPrefixes | crates/chat-server/src/ws.rs:427-436 | in every interleaving the sent part of a batch is a prefix, in order, in a channel of the client it was queued for; the rest is in no channel |
| RelayBatches.NothingIsMisdelivered | crates/chat-server/src/ws.rs:408-436 | in every interleaving a channel holds only what was queued for its connection's client |
| RelayBatches.SendingNeverBlocks | crates/chat-server/src/ws.rs:427-436 | a task that is sending can always take its next step |
| RelayEviction.EvictionKeepsAttachedIff | crates/chat-server/src/ws.rs:429-433 | eviction leaves every served connection its handle, but for those sent a close signal, if and only if the handle it removes is the evicted connection's own or one already closing |
| RelayEviction.CarefulIffAttachedThroughout | crates/chat-server/src/ws.rs:427-436 | over every interleaving: at every point only connections sent a close signal are without their handle if and only if every eviction meets that condition |
| RelayClosing.SendRefusesIffFull | crates/chat-server/src/ws.rs:427-433 | sending gives up a batch if and only if it has an event left and the channel's writer has stopped or 256 events are unread; else the event arrives |
| RelayClosing.SignalledIffOverflowed | crates/chat-server/src/ws.rs:427-433 | over every interleaving a connection was sent a close signal if and only if at some step an event for it found its writer stopped or 256 events unread |
| RelayClosing.SignalledIffRefused | crates/chat-server/src/ws.rs:429-431 | in every interleaving a connection was sent a close signal if and only if a batch for it was given up |
| RelayClosing.ReportedIff | crates/chat-server/src/ws.rs:246-256 | a refused event is reported to its sender, with the code of the refusal, if and only if it is no key announcement to an absent peer and the sender's channel has room |
| RelayClosing.AttachedIffOnlyRefusersLose | crates/chat-server/src/ws.rs:427-436 | in every interleaving, being attached means that only connections whose channel refused an event are without their handle |
| RelayClosing.LostHandleIsLetGo | crates/chat-server/src/ws.rs:408-437 | however a run goes on, a lost handle does not come back, no flush gets hold of it anew, and each that holds a clone drops it within its own remaining steps |
| RelayClosing.LostConnectionIsClosed | crates/chat-server/src/ws.rs:202-235 | once those flushes have run, a connection that lost its handle has no sender of its close channel left, or is gone |
| RelayClosing.ClosedStaysClosed | crates/chat-server/src/ws.rs:202-235 | however a run goes on, a closed close channel stays closed and nothing routed arrives until the task is gone |
| RelayClosing.StaleFlushClosesNewConnection | crates/chat-server/src/ws.rs:427-436 | an interleaving that closes a served, reading, empty connection that refused nothing |
| RelayEviction.FlushesCanReorder | crates/chat-server/src/ws.rs:408-436 | an interleaving in which a channel's order is not the order of acceptance |
| RelayOrder.OrderlyRunsDeliverInOrder | crates/chat-server/src/ws.rs:403-437 | in every interleaving in which no flush drains for a reading connection to which another flush is still sending, each channel holds its routed events in the order of acceptance |
| RelayDisorder.FlushCanMisorderIff | crates/chat-server/src/ws.rs:403-437 | from any state reached in order, after a flush some continuation without a further flush leaves a channel out of acceptance order if and only if the flush drained for a reading connection to which another flush was still sending |
| RelayDisorder.OrderlyIffNeverExposed | crates/chat-server/src/ws.rs:403-437 | over every interleaving: at no point could what was drained arrive out of order if and only if no flush met that condition |
| RelayOrder.ChannelsStayBounded | crates/chat-server/src/ws.rs:201-201 | in every interleaving no channel holds more than 256 unread events |
| RelayRefinement.RelayRefinesRouter | crates/chat-server/src/ws.rs:305-437 | every interleaving leaves the relay's outboxes, and what flushes drained for each connection, as the router has them after the calls it made |
| RelayRefinement.RelayDrainsTheLog | crates/chat-server/src/ws.rs:344-437 | in every interleaving what flushes drained for a registered client's connection, then what is queued, is exactly what was accepted since it registered, as it sees it |
| RelayRefinement.ArrivalsAreGenuine | crates/chat-server/src/ws.rs:344-437 | in every interleaving whatever arrives is a report, an event accepted from the connection of the author it names, or the Ack of an own envelope |
| RelayProgress.JoinsIffFree | crates/chat-server/src/ws.rs:305-331 | registration succeeds if and only if the id is free; otherwise the task goes and nothing else changes |
| RelayProgress.RoutedOrRefused | crates/chat-server/src/ws.rs:344-382 | a refused event is to be reported and changes no queue, an accepted one is to be flushed to exactly the clients it concerns |
| RelayProgress.EveryEventIsHandled | crates/chat-server/src/ws.rs:344-437 | by its own steps alone a task deals with any event and serves again, with nothing left waiting for those it concerns |
| EndToEnd.EmittedIsRouted | crates/chat-server/src/router.rs:30-76 | after any history whatever a client emits is routed if and only if both ends are connected, never refused for sender or kind |
| EndToEnd.AckNamesTheLine | crates/chat-server/src/router.rs:78-88 | after any history the Ack of a sealed line names the message id drawn for it |
| RelayServer.TargetsCoverRouting | crates/chat-server/src/ws.rs:391-401 | routing appends to an outbox exactly what the event means for its client, and the delivery targets are exactly the clients it means something for |
| RelayServer.TakesWhatFits | crates/chat-server/src/ws.rs:427-433 | a queue takes a whole batch if and only if it reads and stays within 256 events, else as much as fits |
| RelayServer.Server.RegisterClient | crates/chat-server/src/ws.rs:305-331 | registration succeeds exactly for an absent id and adds outbox and handle |
| RelayServer.Server.UnregisterClient | crates/chat-server/src/ws.rs:333-342 | handle and outbox go |
| RelayServer.Server.DrainTargets | crates/chat-server/src/ws.rs:408-425 | exactly one delivery, with the whole outbox, for each target that has a handle and something queued |
| RelayServer.Server.WriterTakes | crates/chat-server/src/ws.rs:216-230 | the oldest event leaves the channel, nothing else changes |
| RelayServer.Server.WriterStops | crates/chat-server/src/ws.rs:222-229 | the channel refuses every event from then on |
| RelayServer.Server.Deliver | crates/chat-server/src/ws.rs:427-436 | the channel takes a prefix of the batch; anything short of all of it tells the connection to close and drops its handle |
| RelayServer.Server.FlushOutboxes | crates/chat-server/src/ws.rs:403-437 | what a flush does to every client that had a handle, targets and others |
| RelayServer.Server.RouteAndFlush | crates/chat-server/src/ws.rs:344-382 | calls one at a time: an accepted event reaches the channels it means something for, and no client with a handle has anything waiting afterwards |

## Left out

- Integer width of epochs and of the line counter: both are unbounded here; the additions at `crates/chat-core/src/crypto.rs:156`, `303`, `306` and `crates/chat-client/src/session.rs:126` are unchecked 32-bit additions. The 64-bit nonce counter is modelled with its limit.
- Contexts.KeyInfoIdentifiesPairAndEpoch: stated for epochs below 2^32, the width of the encoded epoch.
- The inside of X25519, HKDF, SHA-256, BLAKE3 and XChaCha20-Poly1305; the errors their wrappers could return are not represented.
- JSON and base64 codecs: payload encoding is an exact round trip, so the two payload codec errors do not occur; only the associated-data text is spelled out.
- The nonce prefix and the fingerprint are collision-free in the model; `SessionRuns.NoncesNeverRepeat` holds for any 16-byte hash.
- Zeroization, the quality of randomness, and fingerprint formatting.
- The client's terminal input and output, and its exit on a refused `/rekey` or a sealing error; a line or `/rekey` without a key has no effect in the model, as in the code.
- WebSocket plumbing, frame limits, authorization, event hooks, the server builder and the mapping of error codes to strings.
- Fifo.ExactLoss: both sides are ready from the start; lines that reach a side before its peer key are refused and not counted here.
- Liveness: nothing is said about when a task, a writer or a user acts.
- RelayServer.Server.RouteAndFlush: calls one at a time; under concurrency the statements are those of the `Relay` modules.
