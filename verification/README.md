# Verified models of the Loopdy plugin's protocols and stores

These Dafny modules model the parts of the plugin whose correctness is an argument over whole
executions: the durable Link transport, the direct admission authority and its command journal,
attachment assembly, the device tool bridge, the bounded stores and queues, and the two normalisers
whose output must be accepted unchanged by a second reader. `dafny verify dfyconfig.toml` checks all
of it.

Code that changes fields step by step is a class with those fields; every method is proved equal to a
function on a value of the state (`ensures Snapshot() == After...(old(Snapshot()), ...)`). What the
code promises is then proved about those functions, mostly over runs: `Run` plays any list of steps in
any order, a step that is not enabled does nothing, and so a lemma about every list of steps is a
lemma about every interleaving. Code made of expressions is functions.

| module | source | subject |
|---|---|---|
| LinkClient, LinkProtocol, LinkCoupling | `link_client.py` | outbound sequence, pending frame, readiness reconciliation; the client against a relay over breaking sockets; where the pending frame stands |
| LinkInbound | `link_client.py` | the inbound dispatcher, its per-sender record and its receipts |
| DirectConnection | `direct_connection.py` | revocation fences, write-once enrollments, one-use challenges |
| DirectCommands | `direct_commands.py`, `direct_server.py` | the admission journal and at-most-once dispatch |
| DirectServer | `direct_server.py` | places held by authenticated connections |
| LinkAttachments | `link_attachments.py` | crash-safe chunk assembly |
| DeviceTools | `device_tools.py` | joining, replaying and refusing tool requests |
| Attachments | `attachments.py` | the attachment cache and its eviction |
| ActivityBridge | `activity_bridge.py` | the two-stage publication buffer and the subagent rosters |
| LiveVoice | `live_voice_provider.py` | text chunking and the event buffer |
| GroupsLog | `groups_contracts.py` | log page validation and gap-free reading |
| AgentTemplates | `agent_templates.py` | the document normaliser and compare-and-swap saves |
| GenerativeUi | `generative_ui.py` | rendering, validating and delivering cards |
| Wrappers, Sets, Sequences, Strings, Numbers | | values shared by the modules |

## What the models take as given

- **The relay.** The relay's program is not part of this model. LinkProtocol takes its contract from
  `PROTOCOL.md` lines 103-123 and 315-330: it admits only the frame one past its last, treats an exact
  repeat of id and sequence as already admitted, and drops what an old socket still carried before it
  issues readiness. Each direction of a socket is first-in first-out.
- **One client process per device**, with handlers that run to completion between suspensions; a frame
  stored as pending is the frame then written, with no suspension in between.
- **Cryptography and digests.** Sealing and opening are inverse; request hashes, file-name digests,
  fingerprints and request ids are collision-free; a signature verifies under one key for one transcript.
  `LinkAttachments.Injective` states this for the content digest where it is needed.
- **Fresh values** (frame ids, nonces, capabilities, row ids, queue identities) do not repeat.
- **Transactions and locks.** An SQLite transaction, a rename and an append are atomic steps.
- **The standard library.** Unicode normalisation (UAX #15), character categories, the credential
  scanner, date and time conversion and JSON text enter as the functions of a `Host`, with the facts
  about them that a theorem needs stated as its precondition (`AgentTemplates.Sane`,
  `GenerativeUi.Facts`).
- **Clocks** are values read at each step; where a theorem needs the clock to be steady it says how much.

## Where the code does less than its documentation says

- `PROTOCOL.md` lines 106-108 say the client waits for readiness before it writes. `send_payload` waits
  for an event that is still set from the previous connection, and `_run` publishes the new socket
  before readiness arrives. A frame written in that window, dropped by readiness and reported as failed
  can still be admitted: `LinkProtocol.FailedSendCanStillBeAdmitted` gives the run,
  `LinkProtocol.DropIsFinalIffNotInFlight` the exact condition, and
  `LinkProtocol.DropIsFinalForTheClientIff` the exact condition the client can check.
- Line 123 says a failed frame is abandoned without replay; in the same window it is not.
- Reconciliation adopts the relay's counter, except that retiring a directed frame keeps a counter that
  runs ahead: `LinkClient.NextOfferAfterReady` and `LinkClient.DirectedRetirementDoesNotReanchor`.
- The pending frame is not always absent, next in line, the relay's last admission, or dead. It is, over
  every run, if and only if the stored keys are such that the counter is not ahead of the relay, or the
  stored frame blocks the client or levels the counter before anything else is sent
  (`LinkCoupling.CouplingHoldsIff`); admission at most once needs no such condition.
- A revocation is permanent from the moment its fence is on disk, not from the moment it is seen: when
  the store fails, a restart forgets it (`DirectConnection.FenceIsPermanentIffPersisted`,
  `DirectConnection.UnpersistedRevocationIsForgotten`).
- A comment in `device_tools.py` (lines 89-92) says a newly bound client never observes a prior
  client's cached result. No answer of a phone ever crosses over (`DeviceTools.ReplayedToItsOwner`), but
  a failure does, in some continuation, exactly if some mutation call for the new client's host, made
  under another client, has not returned when the client is bound (`DeviceTools.FailureOutlivesRebinding`,
  with the run in `DeviceTools.FailureReplayedAfterRebinding`).
- `_normalize_document` is not idempotent. `_safe_url` drops tabs and line breaks inside a URL after
  its text was checked, which can leave text that is not in Normalization Form C. Such a save is written
  and then refused by its own read-back, and the template can neither be read nor overwritten afterwards
  (`AgentTemplates.NormalizeAgain`, `AgentTemplates.TabHidesComposition`, `AgentTemplates.RefusedSave`,
  `AgentTemplates.UnreadableForever`).
- `_cache_item` can store a message that refers to an evicted row: exactly when a row reported for one
  of its files does not fit the limits with all rows no older and all that the message adds afterwards
  (`Attachments.MessageDanglesIff`). That takes neither many nor large files: in a full profile a file
  cached long ago can be evicted by a small new one of the same message (`Attachments.RepeatedFileDangles`).
- When the stale purge takes a partial file and leaves its manifest, repeats of the last chunk are still
  accepted, and the upload can never complete while that manifest stays
  (`LinkAttachments.LostPartialAccepts`, `LinkAttachments.LostPartialIsStuck`).
- The allowance for line breaks in text areas of cards is never used, because the check of the whole
  payload refuses them first (`GenerativeUi.TextAreasTakeNoBreaks`).

## Model

| member | source | states |
|---|---|---|
| LinkClient.LoopdyLinkClient.constructor | loopdy_plugin/link_client.py:431-499 | a process starts from its durable keys only: no waiting future, no backpressure mark, no capabilities survive |
| LinkClient.LoopdyLinkClient.EnterSend | loopdy_plugin/link_client.py:609-616 | a send is refused at its start for the first reason that applies; what was checked may change while it waits |
| LinkClient.LoopdyLinkClient.BeginSend | loopdy_plugin/link_client.py:617-643 | after the waits, whatever changed meanwhile, a send gives up on a frame still pending or stores its own one past the stored counter and registers its future |
| LinkClient.LoopdyLinkClient.FailSend | loopdy_plugin/link_client.py:651-664 | a failed send marks its frame and reconnects exactly when it still owns the pending frame, is not preserved and not backpressured |
| LinkClient.LoopdyLinkClient.EndSend | loopdy_plugin/link_client.py:665-669 | the call gives up every future it owns; one still unsettled is cancelled |
| LinkClient.LoopdyLinkClient.AcceptOutbound | loopdy_plugin/link_client.py:1425-1446 | an acknowledgement settles exactly the pending id and sequence; any other is an error that changes nothing |
| LinkClient.LoopdyLinkClient.HandleBackpressure | loopdy_plugin/link_client.py:1007-1041 | backpressure marks the pending frame for retransmission and clears its failure mark, only for the exact id and sequence |
| LinkClient.LoopdyLinkClient.ReconcileSocketReady | loopdy_plugin/link_client.py:1448-1590 | one readiness takes one of nine branches and leaves exactly the state of that branch |
| LinkClient.LoopdyLinkClient.RebasePending | loopdy_plugin/link_client.py:1568-1590 | a rebased frame carries the same payload under a new id at the relay's next sequence, and its future moves with it |
| LinkClient.ReconciliationRestoresOrder | loopdy_plugin/link_client.py:1507-1590 | from any stored state an accepted readiness leaves no pending frame, or one at the relay's next sequence with the same payload, recipient and class |
| LinkClient.NextOfferAfterReady | loopdy_plugin/link_client.py:1507-1567 | the next offer after a readiness is the relay's next sequence, except exactly when nothing was pending, or the pending frame settled or was retired, while the stored counter ran ahead |
| LinkClient.SelfStabilising | loopdy_plugin/link_client.py:1507-1590 | from any stored state, once a readiness leaves nothing pending, one lost send and one further readiness re-anchor the next offer, with the exact exception of a retired directed frame |
| LinkClient.DirectedRetirementDoesNotReanchor | loopdy_plugin/link_client.py:1551-1567 | the exception is reachable: a counter of 10 offers 11 to a relay at 3 |
| LinkClient.ForeignPendingIsNeverReconciled | loopdy_plugin/link_client.py:1517-1522 | a pending frame of another device or epoch makes every readiness fail and is never changed by one |
| LinkClient.ReadySettles | loopdy_plugin/link_client.py:1523-1567 | the only future a readiness settles is the one waiting on the frame it takes away |
| LinkClient.EntersIff | loopdy_plugin/link_client.py:609-616 | a send passes its entry checks if and only if it is authorized, a tool request names a device, and the peer takes directed frames |
| LinkClient.FrameMeetsRequest | loopdy_plugin/link_client.py:619-643 | the stored frame opens to the payload and goes to the recipient it was given, one past the counter, under this device and epoch, and no other future is disturbed |
| LinkClient.FailedSendIsDropped | loopdy_plugin/link_client.py:651-664 | what a failed send may mark is, under every readiness, found admitted or dropped; in every other case the failure changes nothing |
| LinkClient.BackpressuredIsNotDropped | loopdy_plugin/link_client.py:1007-1041 | a frame the relay asked to have again is never dropped as failed, whatever its send does and whatever readiness follows; a control for any other frame, or without a socket, changes nothing |
| LinkClient.EndedWaitsForNothing | loopdy_plugin/link_client.py:665-669 | a call that ends waits for nothing any more and has an outcome, and every other call keeps its own |
| LinkClient.AcknowledgedResolves | loopdy_plugin/link_client.py:1425-1446 | an acknowledgement of exactly the pending frame resolves the future waiting on it and forgets every mark of the frame; any other changes nothing |
| LinkClient.DeniedAnswersAll | loopdy_plugin/link_client.py:912-935 | revocation answers every waiting call once with the denial and refuses every later send |
| LinkClient.ReadinessAcceptedIff | loopdy_plugin/link_client.py:1448-1538 | a readiness is accepted if and only if it is well formed, for this device and epoch, and no foreign or unkeepable frame is pending |
| LinkClient.ReadinessIsAdopted | loopdy_plugin/link_client.py:1507-1590 | an accepted readiness makes the client adopt the capabilities, the higher receive counter, and the send counter, outright if it drops a failed frame and otherwise if it is the higher |
| LinkClient.PendingFate | loopdy_plugin/link_client.py:1523-1590 | an owned pending frame is settled if and only if named exactly, else dropped if and only if failed, else retired if and only if directed to a peer that takes none, else kept or moved with its future |
| LinkClient.RestartKeepsTheFrame | loopdy_plugin/link_client.py:431-499 | a new process settles, drops, retires or offers again what it finds pending exactly as the old one would have |
| LinkProtocol.RunInv | loopdy_plugin/link_client.py:617-669 | over every interleaving: behind the first copy of the pending frame only copies of it are in flight; once admitted it is the relay's last admission; a superseded frame in flight sits behind nothing the relay could admit; and while readiness is unread only the pending frame was written to its socket |
| LinkCoupling.CouplingHoldsIff | loopdy_plugin/link_client.py:1507-1590 | over every interleaving the pending frame is absent, next in line, exactly the relay's last admission, or never admitted, if and only if of the stored keys: the counter is not ahead; or the stored frame is another owner's; or the relay has not admitted it last and it is either marked failed (with the counter one ahead, or not next in line) or undirected with the counter one ahead |
| LinkCoupling.CouplingHolds | loopdy_plugin/link_client.py:617-669 | in particular whenever the stored counter is not ahead of the relay, whatever frame is stored |
| LinkCoupling.CouplingNeedsTheCounter | loopdy_plugin/link_client.py:1551-1567 | a stored counter one ahead, with nothing pending, has a run in which a pending frame two ahead of the relay is still admitted |
| LinkProtocol.EveryRunAdmitsAtMostOnce | loopdy_plugin/link_client.py:1507-1590 | from any stored counters, over every interleaving of sends, failures, acks, backpressure, socket loss, restart and readiness, each payload is admitted at most once |
| LinkProtocol.OneSend | loopdy_plugin/link_client.py:617-669 | at most one admitted frame belongs to a send, and it carries that send's payload to its recipient |
| LinkProtocol.ResolvedMeansAdmitted | loopdy_plugin/link_client.py:1436-1446 | a future resolved by an ack or by exact readiness, before or after a rebase, belongs to an admitted payload |
| LinkProtocol.DropIsFinalIffNotInFlight | loopdy_plugin/link_client.py:1540-1567 | a future failed by readiness is final if and only if its frame was neither admitted nor next in line on the socket being read |
| LinkProtocol.DropIsFinalForTheClientIff | loopdy_plugin/link_client.py:1540-1567 | what readiness drops is final in every run that looks the same to the client if and only if the frame was not written to this socket or is not the one the readiness asks for |
| LinkProtocol.UnwrittenDropIsFinal | loopdy_plugin/link_client.py:1540-1567 | such a frame is never admitted once readiness has dropped it |
| LinkProtocol.FailedSendCanStillBeAdmitted | loopdy_plugin/link_client.py:880-905 | a concrete run in which a send reported as failed is admitted afterwards |
| LinkProtocol.BackpressuredIsNeverFailed | loopdy_plugin/link_client.py:1007-1041 | over every run after backpressure was read for the pending frame, its call is never told that readiness dropped it |
| LinkProtocol.SendGetsThrough | loopdy_plugin/link_client.py:603-669 | a send over a quiet connection in step with the relay is admitted once, as the next frame, with its payload and recipient, and its caller is told so |
| LinkProtocol.ReconnectionDelivers | loopdy_plugin/link_client.py:880-905 | from any state, with anything in flight and counters apart, one reconnection and one round trip deliver the pending frame and tell its caller, unless it was marked failed and the relay has not got it |
| LinkInbound.InboundDispatcher.TakeNext | loopdy_plugin/link_client.py:1201-1240 | the dispatcher receipts a repeat without a callback and hands over anything else in queue order |
| LinkInbound.InboundDispatcher.AcceptInboundFrame | loopdy_plugin/link_client.py:1399-1416 | a new frame raises its sender's record before its receipt; a repeat is only receipted |
| LinkInbound.InboundDispatcher.ResumeFromCallback | loopdy_plugin/link_client.py:1242-1324 | after its callback a frame is recorded, answered, quarantined or left for redelivery, as its kind and the callback's end demand |
| LinkInbound.InboundDispatcher.ResumeFromReply | loopdy_plugin/link_client.py:1281-1325 | a turn is recorded only after its correlated reply was delivered |
| LinkInbound.InboundSafety | loopdy_plugin/link_client.py:1201-1335 | over every run no recorded sequence decreases, every receipt is for a recorded frame, and a recorded frame never reaches the callback again |
| LinkInbound.CompletedNeverRepeats | loopdy_plugin/link_client.py:1383-1416 | a frame whose callback returned and that was recorded is never handed over a second time |
| LinkInbound.AnsweredTurnNeverRepeats | loopdy_plugin/link_client.py:1309-1325 | a turn whose accepted reply was delivered is never handed over a second time |
| LinkInbound.TakeMeans | loopdy_plugin/link_client.py:1201-1240 | a repeat, a malformed frame, one for another host and an expired invitation are consumed without a callback; a turn without its attachment owes a failed reply; everything else is handed over |
| LinkInbound.CallbackMeans | loopdy_plugin/link_client.py:1242-1324 | a turn goes on to its reply; of the others all are consumed, returned or raised, except a valid invitation and a wake-up that raised, which stay owed |
| LinkInbound.ReplyMeans | loopdy_plugin/link_client.py:1281-1325 | a turn is consumed exactly when its reply is delivered |
| LinkInbound.DeliveryConsumes | loopdy_plugin/link_client.py:1201-1335 | an undisturbed delivery records and receipts the frame and calls the application exactly once if the frame is new and of a kind that is heard |
| LinkInbound.InterruptedIsRedelivered | loopdy_plugin/link_client.py:1326-1335 | a frame held when the connection goes is not recorded, and is consumed when it is delivered again |
| DirectConnection.DirectConnectionAuthority.RefreshLifecycleCatalog | loopdy_plugin/direct_connection.py:497-536 | a refresh publishes every raised floor in memory before it stores it, and reports freshness only when the store succeeded and nothing rolls back |
| DirectConnection.DirectConnectionAuthority.RequireCurrentPeer | loopdy_plugin/direct_connection.py:672-689 | success needs a fresh catalog, unfenced host and peer, active devices at their epochs and the exact binding |
| DirectConnection.DirectConnectionAuthority.ValidatePeer | loopdy_plugin/direct_connection.py:657-670 | a peer is returned only if its whole identity is the current binding's |
| DirectConnection.DirectConnectionAuthority.EnrollFromLink | loopdy_plugin/direct_connection.py:394-470 | an enrollment returns the recorded outcome, binds a new epoch, or fails leaving the bindings as they were |
| DirectConnection.DirectConnectionAuthority.IssueChallenge | loopdy_plugin/direct_connection.py:581-611 | a challenge is issued only to a current peer, after pruning, within the capacity |
| DirectConnection.DirectConnectionAuthority.VerifyChallengeResponse | loopdy_plugin/direct_connection.py:619-655 | the challenge is consumed before anything about the response is judged |
| DirectConnection.RunInv | loopdy_plugin/direct_connection.py:306-316 | over every run at most 256 bindings and 64 challenges, never more authentications than issues of a nonce, and stored fences within what a restart loads |
| DirectConnection.RefreshFences | loopdy_plugin/direct_connection.py:497-536 | a refresh raises a distrusted device's fence in memory to exactly what the catalog invalidates - its bound epoch, the later catalog epoch, or the one before a superseding epoch - and no other fence; unless the store is reported failed the fences on disk are the same |
| DirectConnection.RefreshIsFreshIff | loopdy_plugin/direct_connection.py:497-536 | a refresh succeeds if and only if the store works, where it is needed, and every known device the catalog vouches for is beyond its fence; then the catalog is adopted at this time, and every error leaves no freshness |
| DirectConnection.FencesOnlyRiseInProcess | loopdy_plugin/direct_connection.py:497-536 | no catalog and no failing store ever lowers a fence within a process |
| DirectConnection.RevocationIsPermanent | loopdy_plugin/direct_connection.py:672-689 | after a stored refresh every validation, challenge, response and enrollment at or below the fence it left is refused over every continuation, restarts included; for a distrusted device that fence covers all the catalog invalidates |
| DirectConnection.FencedHostAdmitsNobody | loopdy_plugin/direct_connection.py:672-689 | once the host itself is fenced no peer is ever current again |
| DirectConnection.FenceIsPermanentIffPersisted | loopdy_plugin/direct_connection.py:306-316 | with restarts allowed, a fence is permanent if and only if it is on disk |
| DirectConnection.SuccessImpliesPersisted | loopdy_plugin/direct_connection.py:497-536 | every success finds the fences on disk equal to those in memory |
| DirectConnection.UnpersistedRevocationIsForgotten | loopdy_plugin/direct_connection.py:306-316 | a revocation whose store failed is undone by a restart and a stale catalog |
| DirectConnection.EnrollmentIsWriteOnce | loopdy_plugin/direct_connection.py:394-470 | over every run a device's bound epoch never decreases and what is bound at an epoch never changes |
| DirectConnection.FailedEnrollmentBindsNothing | loopdy_plugin/direct_connection.py:440-470 | an enrollment that fails, by a failed store or otherwise, leaves every binding as it was |
| DirectConnection.RepeatedEnrollment | loopdy_plugin/direct_connection.py:428-438 | repeating a successful enrollment returns the same outcome and changes nothing, exactly while it is still current |
| DirectConnection.CurrentPeerIff | loopdy_plugin/direct_connection.py:657-689 | a peer is current if and only if the catalog is at most 300 seconds old, host and peer are unfenced and listed at their epochs, and the device is bound at this one |
| DirectConnection.EnrolledIff | loopdy_plugin/direct_connection.py:394-470 | an enrollment succeeds if and only if it is signed, not fenced, and repeats the bound request or binds a later epoch with an unused nonce, within the limits and a working store; only then does it bind, this device alone |
| DirectConnection.EnrollmentNonceIsSpent | loopdy_plugin/direct_connection.py:440-470 | for 300 seconds no second request with the nonce of an enrollment binds anything, over every run of the process |
| DirectConnection.RestartKeepsEnrollments | loopdy_plugin/direct_connection.py:306-316 | a new process trusts nobody before its first refresh and then exactly the stored bindings the catalog lists and no fence covers |
| DirectConnection.ChallengeIff | loopdy_plugin/direct_connection.py:581-655 | exactly when a challenge is issued and when a response is accepted; whatever the answer, the challenge is gone and all others stay |
| DirectConnection.IssuedCanBeAnswered | loopdy_plugin/direct_connection.py:581-655 | whatever else happens within its 30 seconds, a challenge is answered successfully by the holder of the key bound by then, if still current |
| DirectConnection.VerifiedMeansIssued | loopdy_plugin/direct_connection.py:619-655 | an authentication implies a challenge issued within its 30 seconds to the same device, epoch and connection, a current binding, and the bound key's signature over this exchange with the nonce the peer chose |
| DirectConnection.ProofIsForOneChallenge | loopdy_plugin/direct_connection.py:640-648 | a proof accepted twice, by any authority, answered the same challenge both times |
| DirectConnection.ChallengeIsSpent | loopdy_plugin/direct_connection.py:619-655 | whatever the answer, a challenge presented once never authenticates anyone afterwards |
| DirectCommands.DirectCommandJournal.AdmitCommand | loopdy_plugin/direct_commands.py:461-553 | one admission transaction: window, purge, conflict or replay, capacities, insertion, and a capability only for what this process may complete |
| DirectCommands.DirectCommandJournal.CompleteCommand | loopdy_plugin/direct_commands.py:554-628 | completion needs a capability of this process for the very row, replaces the reservation by the result's size and forgets the key |
| DirectCommands.JournalConservation | loopdy_plugin/direct_commands.py:512-535 | in every reachable state the table is within both limits and each row reserves exactly its due |
| DirectCommands.CompletionIsOnce | loopdy_plugin/direct_commands.py:580-612 | completion succeeds if and only if the admitted row of this owner and payload is there, touches one row, never raises a reservation, and cannot be repeated |
| DirectCommands.UnexpiredIsNeverEvicted | loopdy_plugin/direct_commands.py:480-482 | no run of admissions and completions before its expiry removes a record, or changes a completed one |
| DirectCommands.ReplayReportsTheRecord | loopdy_plugin/direct_commands.py:490-510 | until it expires a record answers for its key: the one completed result, admitted to its process, uncertain to others, conflict if and only if payload or time differ |
| DirectCommands.NewIff | loopdy_plugin/direct_commands.py:461-553 | a command is new if and only if it is in the window, no unexpired row has its key, and both limits leave room |
| DirectCommands.CompletedIsReplayed | loopdy_plugin/direct_commands.py:490-612 | the bytes a command completed with are what every later request for the same command gets, from any process, until the record expires |
| DirectCommands.NewIsRemembered | loopdy_plugin/direct_commands.py:490-553 | a new command is remembered: until it expires no request with its key is new again |
| DirectCommands.NewIsNotRecorded | loopdy_plugin/direct_commands.py:473-482 | a recorded dispatch is not new to any clock less than a minute behind the latest |
| DirectCommands.DispatchedAtMostOnce | loopdy_plugin/direct_server.py:538-569 | a command is dispatched at most once per principal, id and issue time over every run of any number of processes whose clock never falls back a minute |
| DirectCommands.DispatchesTwice | loopdy_plugin/direct_commands.py:32-34 | a clock allowed to fall back a minute admits a run that dispatches twice |
| DirectCommands.ClockToleranceIsExact | loopdy_plugin/direct_commands.py:32-34 | at-most-once dispatch holds for a clock slack if and only if it is under 60 seconds |
| DirectServer.DirectConnections.TakePlace | loopdy_plugin/direct_server.py:359-364 | an authenticated connection takes a place of its peer, or is refused at two |
| DirectServer.DirectConnections.EndCleanup | loopdy_plugin/direct_server.py:786-792 | a connection that held a place gives back exactly that one |
| DirectServer.PlacesAreCounted | loopdy_plugin/direct_server.py:777-793 | over every run at most 16 connections are open and a peer's count is the number of handlers holding its places, at most two, plus those lost to cancelled cleanups |
| DirectServer.NoCancellationNoLoss | loopdy_plugin/direct_server.py:777-793 | while no cleanup is cancelled a peer's count is exactly the number of handlers holding its places, all of which can still give theirs back unless one was cancelled before its cleanup |
| DirectServer.TwoLossesLockOut | loopdy_plugin/direct_server.py:311-317 | conditional: the server itself cancels no handler, but were two of one peer cancelled from outside, before their cleanup or within it, the peer would stay out for the life of the server |
| DirectServer.AcceptIff | loopdy_plugin/direct_server.py:293-310 | a connection is accepted if and only if fewer than 16 are open |
| DirectServer.PlaceIff | loopdy_plugin/direct_server.py:359-364 | a peer is given a place if and only if its holders and its lost places are fewer than two |
| DirectServer.PlaceComesBack | loopdy_plugin/direct_server.py:786-792 | a place given back can be taken by any other connection of that peer |
| LinkAttachments.LinkAttachmentInbox.Accept | loopdy_plugin/link_attachments.py:34-100 | a call makes the durable writes of its plan in order, up to the point where the process dies |
| LinkAttachments.AcceptEffect | loopdy_plugin/link_attachments.py:34-100 | a call, crashed anywhere, touches no other upload and makes a ready file appear at most once and only verified |
| LinkAttachments.ReadyIsVerified | loopdy_plugin/link_attachments.py:186-192 | over every run of chunks from anyone, crashes and removals, a ready file has the digest it is filed under |
| LinkAttachments.ReadyIsStable | loopdy_plugin/link_attachments.py:52-54 | a ready file stays as it is until it is removed |
| LinkAttachments.AcceptedFinalChunk | loopdy_plugin/link_attachments.py:97-100 | an accepted final chunk leaves a ready file of exactly the referenced length and digest |
| LinkAttachments.ReadyAnswers | loopdy_plugin/link_attachments.py:52-54 | while the file is ready a chunk is accepted exactly if that file verifies, and nothing is written |
| LinkAttachments.MiddleIff | loopdy_plugin/link_attachments.py:56-95 | a chunk before the last is accepted if and only if its metadata are those of the upload, it is the next or the last one again, and it fits its place; then the partial file holds it and the manifest counts it, else nothing is written |
| LinkAttachments.LastIff | loopdy_plugin/link_attachments.py:56-100 | the last chunk is accepted if and only if moreover the whole file verifies; then exactly that file is ready |
| LinkAttachments.CurrentChunk | loopdy_plugin/link_attachments.py:56-100 | delivering the unacknowledged chunk keeps the upload resumable wherever the process dies, and succeeds if it survives |
| LinkAttachments.PreviousChunk | loopdy_plugin/link_attachments.py:66-90 | a repeat of the last acknowledged chunk changes nothing that matters and is accepted unless the next chunk reached the manifest |
| LinkAttachments.RunProgress | loopdy_plugin/link_attachments.py:56-100 | over every schedule of repeats, crashes and other uploads the partial file is a whole number of chunks at most one ahead of the manifest |
| LinkAttachments.UploadResumes | loopdy_plugin/link_attachments.py:56-100 | after any schedule, redelivering the unacknowledged chunks once each leaves a ready file equal to the concatenation of all chunks |
| LinkAttachments.RestartAfterLostManifest | loopdy_plugin/link_attachments.py:194-203 | when the stale purge took the manifest alone, the sender can start over if and only if at most its first chunk is on disk |
| LinkAttachments.LostPartialAccepts | loopdy_plugin/link_attachments.py:66-95 | when it took the partial file alone, a chunk is accepted if and only if it is the last one the manifest counts, and none changes anything on disk |
| LinkAttachments.LostPartialIsStuck | loopdy_plugin/link_attachments.py:66-95 | so no schedule of the upload's own chunks completes it while that manifest stays |
| DeviceTools.DeviceToolBridge.ExecuteCall | loopdy_plugin/device_tools.py:259-375 | a call is refused, joins the pending request, replays the cached outcome, or submits one new request |
| DeviceTools.DeviceToolBridge.RecordOutcome | loopdy_plugin/device_tools.py:488-513 | a mutation's redacted outcome becomes the most recent of at most 256; a read leaves no trace |
| DeviceTools.DeviceToolBridge.AwaitReturns | loopdy_plugin/device_tools.py:428-486 | a resumed call re-checks client, route and permission before it lets an answer out, and records what it returns |
| DeviceTools.DeviceToolBridge.ResultArrives | loopdy_plugin/device_tools.py:185-230 | a result sets the future of its pending request once, if coordinates, route and time agree |
| DeviceTools.DeviceToolBridge.StatusArrives | loopdy_plugin/device_tools.py:109-183 | an accepted status is newer than the one it replaces and fails every unanswered request it no longer covers |
| DeviceTools.DeviceToolBridge.BindLinkClient | loopdy_plugin/device_tools.py:80-97 | another client starts with no status and no outcome, and every unanswered request fails |
| DeviceTools.RunInv | loopdy_plugin/device_tools.py:259-513 | over every run at most 128 pending and 256 outcomes, no read and no private field ever cached, and every repeated submission of a mutation paid for by a recorded loss |
| DeviceTools.SubmittedAtMostOnce | loopdy_plugin/device_tools.py:318-421 | with one client bound and no call cancelled a mutation reaches the transport at most once while its entry is kept, and outright for up to 256 mutations |
| DeviceTools.CancelledIsSubmittedAgain | loopdy_plugin/device_tools.py:484-486 | a cancelled call's request can be submitted again, so the hypothesis is needed |
| DeviceTools.AnsweredOnce | loopdy_plugin/device_tools.py:226-230 | a request is answered once: over every continuation whoever joined it comes back with that answer or a failure |
| DeviceTools.WithdrawnRequestFails | loopdy_plugin/device_tools.py:165-183 | once a status withdraws the capability of an unanswered request every caller on it fails, even if it is granted again |
| DeviceTools.ReplayedToItsOwner | loopdy_plugin/device_tools.py:85-97 | over every rebinding a phone's answer is replayed only under the client it was submitted under |
| DeviceTools.FailureOutlivesRebinding | loopdy_plugin/device_tools.py:85-97 | in every reachable state, some continuation under the next client replays another client's outcome if and only if a mutation call for its host made under another client has not returned: sending, waiting, or answered and not resumed |
| DeviceTools.ForeignReplayIsFailure | loopdy_plugin/device_tools.py:85-97 | over every run such a replayed outcome is a failure, never a phone's answer |
| DeviceTools.FailureReplayedAfterRebinding | loopdy_plugin/device_tools.py:85-97 | a concrete run in which the second client is told the first one's failure and sends nothing |
| DeviceTools.NothingWithoutPermission | loopdy_plugin/device_tools.py:310-317 | a call that is not refused, and a phone answer that is let out, rest on a status of that phone that is available, enables the capability and is at most two minutes old |
| DeviceTools.StatusesAreLatest | loopdy_plugin/device_tools.py:109-183 | over every run each status held is the one accepted last from its phone |
| DeviceTools.LatestStatusDecides | loopdy_plugin/device_tools.py:259-317 | so over every run what is submitted, replayed or let out is permitted by the last status that phone sent |
| DeviceTools.ExecuteIff | loopdy_plugin/device_tools.py:259-375 | exactly when a call joins, replays, submits or is refused; only a submission reaches the transport, and a refusal changes nothing |
| DeviceTools.ResultIff | loopdy_plugin/device_tools.py:185-230 | a result is accepted if and only if it comes to this host, for a pending request, with its coordinates, operation and route, no earlier than asked; it sets that one future, once |
| DeviceTools.StatusIff | loopdy_plugin/device_tools.py:109-183 | a status is accepted if and only if it is for this host, within its time, and newer than the last of that phone; it takes its place and fails exactly the unanswered requests it does not permit |
| DeviceTools.BoundAnew | loopdy_plugin/device_tools.py:80-97 | another client finds nothing of the old one, and every unanswered request fails |
| DeviceTools.RetiredRoutes | loopdy_plugin/device_tools.py:99-108 | when routes end exactly the statuses of their phones go and the unanswered requests over them fail |
| DeviceTools.CallEnds | loopdy_plugin/device_tools.py:428-513 | a failed send and a timeout are remembered for a mutation, a cancellation is not, and the request pends no more unless another call took its place |
| DeviceTools.ResumeIff | loopdy_plugin/device_tools.py:440-483 | a phone answer comes back if and only if context, client, route and permission still stand |
| DeviceTools.RedactedKeeps | loopdy_plugin/device_tools.py:488-513 | what is remembered of an answer is its status and exactly the id, revision and deletion of its payload |
| DeviceTools.AnswerIsReplayed | loopdy_plugin/device_tools.py:428-513 | the answer a mutation came back with is what asking again replays, with the public fields of its payload |
| Attachments.AttachmentStore.EnforceProfileLimits | loopdy_plugin/attachments.py:243-303 | the eviction loop terminates in the state of the eviction function |
| Attachments.AttachmentStore.CacheFileRow | loopdy_plugin/attachments.py:161-241 | a cached file survives enforcing or is read and inserted again; what is returned is what the table then holds |
| Attachments.AttachmentStore.CacheItemRows | loopdy_plugin/attachments.py:340-378 | the message and its references replace those stored before |
| Attachments.EnforceOutcome | loopdy_plugin/attachments.py:243-303 | eviction ends within both limits, keeps a row if and only if it and the rows no older fit together, touches no other profile, and drops exactly the messages that showed an evicted row |
| Attachments.KeptIff | loopdy_plugin/attachments.py:243-303 | in figures: a row stays if and only if it and the rows no older are at most 500 and at most 250 MiB |
| Attachments.CacheFileMeans | loopdy_plugin/attachments.py:161-241 | a reported row is in the table and holds the file; a file over 25 MiB is reported as such and an unreadable one as unavailable unless a row for it survives; at most the own row of the file is added and other profiles are untouched |
| Attachments.CachedReadsBack | loopdy_plugin/attachments.py:305-378 | a message cached with rows that exist is read back with its text and its attachments in order, under the digest of its text and no other |
| Attachments.ResolvedReadsBack | loopdy_plugin/attachments.py:100-159 | resolving a message that shows something, then reading it, gives what was shown if it is all still there; one that shows nothing is not cached |
| Attachments.EnforceKeepsReferences | loopdy_plugin/attachments.py:273-295 | eviction never leaves a message pointing at a row it removed |
| Attachments.NewestSurvives | loopdy_plugin/attachments.py:204-241 | with timestamps that do not decrease the row just inserted survives and is returned |
| Attachments.AttachmentStore.ResolveItem | loopdy_plugin/attachments.py:134-158 | at most 20 files are cached in turn, and the message is cached with the rows reported, if any |
| Attachments.MessageDanglesIff | loopdy_plugin/attachments.py:134-158 | with a clock that does not fall back, resolving a message of any mix of cached, new, oversized and unreadable files leaves no dangling reference if and only if each reported row fits with all rows no older and all that is added after it was reported |
| Attachments.NewMessageDanglesIff | loopdy_plugin/attachments.py:134-158 | for new files alone that is their total size |
| Attachments.RepeatedFileDangles | loopdy_plugin/attachments.py:134-158 | a full profile, a message cached before with a file that is its oldest row, and one small new file leave a dangling reference |
| ActivityBridge.LinkActivityBroker.PublishPayload | loopdy_plugin/activity_bridge.py:789-819 | a publication joins the bounded pending buffer and schedules one flush per queue |
| ActivityBridge.LinkActivityBroker.FlushPublications | loopdy_plugin/activity_bridge.py:821-829 | a flush moves all pending publications into the attached queue, and does nothing for a replaced one |
| ActivityBridge.FlushKeepsMostRecent | loopdy_plugin/activity_bridge.py:821-888 | after a flush the queue is exactly the most recent 256 of what it held and everything published since |
| ActivityBridge.SenderSeesPublishOrder | loopdy_plugin/activity_bridge.py:789-888 | over every run the sender gets a subsequence of publish order, both stages are bounded, and nothing pends without a flush scheduled |
| ActivityBridge.PublishIff | loopdy_plugin/activity_bridge.py:789-819 | a payload is taken if and only if a sender is attached on an open loop and a flush is on its way or can be scheduled; it then is the last of at most 256 that pend |
| ActivityBridge.EverythingArrives | loopdy_plugin/activity_bridge.py:821-888 | once the scheduled flushes have run and the queue is drained the sender has the most recent 256 of all that was on its way |
| ActivityBridge.ReattachLosesNothing | loopdy_plugin/activity_bridge.py:93-104 | attaching again to the same loop loses nothing on its way |
| ActivityBridge.NewSenderSeesNewOnly | loopdy_plugin/activity_bridge.py:93-149 | after a detach or an attach to another loop nothing published before is ever sent |
| ActivityBridge.LinkActivityBroker.SubagentStarted | loopdy_plugin/activity_bridge.py:675-730 | a start lists the child as most recent, keeps its first start time and turn, and trims children and owners oldest first with their turns |
| ActivityBridge.LinkActivityBroker.SubagentStopped | loopdy_plugin/activity_bridge.py:688-730 | a stop removes a listed child and its turn and reports an unknown one |
| ActivityBridge.TurnsNameListedChildren | loopdy_plugin/activity_bridge.py:675-730 | over every sequence of hooks at most 256 owners and 256 children each, and every parent turn names a listed child |
| ActivityBridge.ListedIffRunning | loopdy_plugin/activity_bridge.py:661-730 | a listed child is one whose last hook was its start, and within capacity every such child is listed |
| ActivityBridge.StartMeans | loopdy_plugin/activity_bridge.py:675-730 | a started child is last in its roster with new details and its first start time and turn, its owner last of the owners, and of either list the most recent 256 stay in order, with exactly their turns |
| ActivityBridge.StopMeans | loopdy_plugin/activity_bridge.py:688-730 | a stop is known if and only if the child is listed; then the child and its turn go and nothing else |
| LiveVoice.Chunks | loopdy_plugin/live_voice_provider.py:175-192 | a text is refused whole or cut into nonempty chunks of at most 500 UTF-8 bytes that concatenate to it, each cut only where the next character did not fit |
| LiveVoice.AtMostElevenChunks | loopdy_plugin/live_voice_provider.py:175-192 | 1800 UTF-16 units never need more than 11 chunks |
| LiveVoice.ElevenIsReached | loopdy_plugin/live_voice_provider.py:175-192 | some text of exactly 1800 units needs 11 |
| LiveVoice.ChunkingIsUnique | loopdy_plugin/live_voice_provider.py:181-192 | a text has exactly one such cutting |
| LiveVoice.AcceptableIff | loopdy_plugin/live_voice_provider.py:175-192 | a text is accepted if and only if it says something, has no lone surrogate and at most 1800 units; the byte limit never decides |
| LiveVoice.LiveTransport.EmitEvent | loopdy_plugin/live_voice_provider.py:427-431 | an event is queued with its size or refused, never dropped for another |
| LiveVoice.EventsAreLossless | loopdy_plugin/live_voice_provider.py:427-465 | over every run the consumer has a prefix of the accepted events and the rest is queued, the byte count is the queue's and at most 1 MiB, and the closing entries always fit |
| LiveVoice.EmitIff | loopdy_plugin/live_voice_provider.py:427-431 | an event is taken if and only if fewer than 32 are queued and 1 MiB is not exceeded, and is then the last |
| LiveVoice.ConsumerGetsAll | loopdy_plugin/live_voice_provider.py:636-649 | after the cleanup the consumer gets every accepted event, then the closing one, then the end |
| GroupsLog.ValidateLogPage | loopdy_plugin/groups_contracts.py:39-108 | one pass accepts exactly the pages that are consecutive, distinct, permitted and consistent with their cursor |
| GroupsLog.ReadingIsGapFree | loopdy_plugin/groups_contracts.py:61-108 | pages chained by cursor give consecutive sequence numbers from the first request on, and the whole log when the last page has no more |
| GroupsLog.ReadingProgresses | loopdy_plugin/groups_contracts.py:61-63 | every page with more to come is strictly nearer to its latest sequence, so reading under a bound ends |
| GroupsLog.HonestIsAccepted | loopdy_plugin/groups_contracts.py:39-108 | every honest answer from a log to a proper request is accepted |
| GroupsLog.HonestLogIsReadWhole | loopdy_plugin/groups_contracts.py:39-108 | reading an honest log on from the cursor gives exactly its events after the first cursor, in order |
| GroupsLog.ReadEventsAreGenuine | loopdy_plugin/groups_contracts.py:66-108 | every event a reader accepts belongs to the room, was written by someone who may write its kind, and has a valid number and time |
| AgentTemplates.IdentifierSetAgain | loopdy_plugin/agent_templates.py:612-632 | a sorted set of identifiers normalises to itself |
| AgentTemplates.JsonIsKept | loopdy_plugin/agent_templates.py:332-355 | an accepted configuration value is kept as it is |
| AgentTemplates.NormalizeConfigAgain | loopdy_plugin/agent_templates.py:358-384 | the projection of a configuration projects to itself with nothing omitted |
| AgentTemplates.TableIsOk | loopdy_plugin/agent_templates.py:160-179 | the table of fields that may be saved names no key and no field twice |
| AgentTemplates.SafeUrlAgain | loopdy_plugin/agent_templates.py:315-322 | an accepted URL is accepted again, and then unchanged, if and only if its reassembled form is in Normalization Form C and holds no credential |
| AgentTemplates.PlainUrlIsStable | loopdy_plugin/agent_templates.py:315-322 | an accepted URL without tab, line break, leading space, query mark or capital in its scheme is returned as it is, and so is stable |
| AgentTemplates.TabHidesComposition | loopdy_plugin/agent_templates.py:315-322 | a tab between a letter and a combining mark makes an accepted URL whose reassembled form is refused |
| AgentTemplates.SomeUrlIsUnstable | loopdy_plugin/agent_templates.py:315-322 | one such URL, with a library that composes an e with an acute accent: accepted once, and its result refused |
| AgentTemplates.NormalizeAgain | loopdy_plugin/agent_templates.py:583-641 | a normalised document is accepted again, and then unchanged, if and only if the server URLs it came from are stable |
| AgentTemplates.UrlIff | loopdy_plugin/agent_templates.py:315-322 | a URL is accepted if and only if it is clean text naming a plain web host without query and fragment, and becomes the same URL, without leading space and breaks, its scheme in lower case |
| AgentTemplates.JsonIff | loopdy_plugin/agent_templates.py:332-355 | a configuration value is accepted if and only if along no path there is a ninth level, more than 256 entries, a number out of range, an unclean text or a secret key |
| AgentTemplates.ConfigIsKept | loopdy_plugin/agent_templates.py:358-384 | what is saved of an accepted configuration is everything the table lets through, unchanged, and nothing else |
| AgentTemplates.DocumentIff | loopdy_plugin/agent_templates.py:583-641 | a document is accepted only if all its parts are and refused only if one is not or the whole holds a credential or is too large; accepted, it says what was sent: texts, skills, commands, settings and switches, the same names in order, the same URLs |
| AgentTemplates.TemplateFolder.NormalizedServers | loopdy_plugin/agent_templates.py:602-614 | the pass over servers rejects a repeated name and rewrites the rest in order |
| AgentTemplates.TemplateFolder.WriteTemplate | loopdy_plugin/agent_templates.py:530-580 | a write needs the current revision and source, or none for a new template, replaces the file and reads it back |
| AgentTemplates.AcceptedSave | loopdy_plugin/agent_templates.py:530-580 | an accepted save reads back equal, touches no other template, and replaced exactly the document whose revision was named, with the same source |
| AgentTemplates.RefusedSave | loopdy_plugin/agent_templates.py:552-580 | a refused save leaves the folder as it was, except that an unstable document nothing else hinders is written |
| AgentTemplates.SaveIff | loopdy_plugin/agent_templates.py:530-580 | exactly which saves are accepted: acceptable documents with stable URLs that name no revision and find no file, or find the named revision with the same source |
| AgentTemplates.NoUpdateIsLost | loopdy_plugin/agent_templates.py:859-862 | over every run of saves each accepted save replaced what the last accepted one had stored |
| AgentTemplates.SourceIsForever | loopdy_plugin/agent_templates.py:542-543 | the source of a stored template is the same after any run of saves |
| AgentTemplates.UnreadableForever | loopdy_plugin/agent_templates.py:493-527 | a template that cannot be read stays so, byte for byte, over any run of saves |
| GenerativeUi.NormalizeById | loopdy_plugin/generative_ui.py:628-650 | the loop with the ids seen so far accepts exactly the lists whose items are accepted with distinct ids |
| GenerativeUi.NormalizeAgain | loopdy_plugin/generative_ui.py:385-733 | for every component normalising what was normalised changes nothing |
| GenerativeUi.NumberIff | loopdy_plugin/generative_ui.py:831-837 | a number is accepted by its value alone, whichever way it is written, and keeps that value |
| GenerativeUi.NormalizeKeepsContent | loopdy_plugin/generative_ui.py:385-733 | normalising keeps the content, for every rule and value: numbers their value, flags and integers everything, texts up to Normalization Form C, instants and days what they name, lists their order, objects their members - but for two teams exchanged and the limit of a multiple selection |
| GenerativeUi.CardsAreSound | loopdy_plugin/generative_ui.py:385-733 | the data of every rendered and every validated card meet the conditions of its component: ascending periods, the guests first, limits that can be met, offered defaults, points in order and within their total |
| GenerativeUi.GlobalOkIff | loopdy_plugin/generative_ui.py:792-806 | the check of the whole payload passes if and only if along no path there is a forbidden key, a seventh nested object, a control character or a number out of range |
| GenerativeUi.NothingForbiddenPasses | loopdy_plugin/generative_ui.py:194-363 | nothing forbidden passes rendering or validating, at any depth |
| GenerativeUi.NormalizedIsPermitted | loopdy_plugin/generative_ui.py:792-806 | what a normaliser makes of permitted data passes the check of the whole payload at the same depth |
| GenerativeUi.ComponentsFormed | loopdy_plugin/generative_ui.py:385-733 | the rules of all nine components have the shape the fixed-point theorem needs |
| GenerativeUi.ProvenanceAgain | loopdy_plugin/generative_ui.py:765-789 | provenance with its derived age is accepted again, unchanged |
| GenerativeUi.RenderThenValidate | loopdy_plugin/generative_ui.py:194-363 | every rendered card is accepted by the validator and returned unchanged |
| GenerativeUi.RenderKeepsContent | loopdy_plugin/generative_ui.py:194-264 | a rendered card says what the payload says, with the age counted to now, under a hash of all of it; a form names the given owner and request and expires in five minutes |
| GenerativeUi.ValidateKeepsContent | loopdy_plugin/generative_ui.py:267-363 | an accepted result has the hash of its own content and an id of that hash or its request, and the card says what the result said |
| GenerativeUi.FactsCanBeMet | loopdy_plugin/generative_ui.py:861-882 | the facts assumed of normalisation, dates and times hold together of some library |
| GenerativeUi.SomeCardRenders | loopdy_plugin/generative_ui.py:194-264 | with that library a checklist with provenance is rendered, so the theorems about rendered cards speak of something |
| GenerativeUi.SomeFormRenders | loopdy_plugin/generative_ui.py:194-264 | and so is a form with its submit action |
| GenerativeUi.ExtractUndoesDeliver | loopdy_plugin/generative_ui.py:132-171 | extracting a delivered card, wrapped or raw, returns the card |
| GenerativeUi.ExtractIff | loopdy_plugin/generative_ui.py:132-171 | a wrapped card is extracted if and only if its wrapper is of version 1, the validator accepts it, and what is displayed is its canonical text in a fence with the instruction |
| GenerativeUi.TextAreasTakeNoBreaks | loopdy_plugin/generative_ui.py:792-828 | a text area of a permitted payload takes exactly what a line takes |

## Left out

- LinkProtocol: two live client processes for one device; the file lock that excludes them is not modelled.
- LinkProtocol.DropIsFinalIffNotInFlight: its condition speaks of the socket's contents, which the client cannot see; DropIsFinalForTheClientIff is the condition it can check.
- LinkClient.LoopdyLinkClient.HandleBackpressure: the one retry task and its delay are not in the state; LinkProtocol lets the pending frame be written again at any time.
- LinkInbound: delivery across reconnects; the code leaves redelivery to the relay.
- LinkInbound: handling a frame without deferring its callback, which the receive loop never asks for.
- LinkInbound.InboundSafety: a sender identity is one key; the migration of older keys is not modelled.
- Live activity updates, status notifications and the retry timer of `link_client.py`.
- DirectConnection: signature and certificate encodings, and the shape checks on catalogs and enrollments.
- DirectCommands.JournalConservation: all processes are taken to use the same limits.
- DirectCommands.DispatchedAtMostOnce: a dispatch that fails halfway is still one dispatch; what it did is unknown to the journal.
- DirectServer: message framing, queries, subscriptions and the request task set.
- LinkAttachments.UploadResumes: the stale purge and discarding are not among its steps, because the code gives no guarantee across them; ReadyIsVerified includes them.
- LinkAttachments: an append torn by a power loss, and leftover temporary manifests.
- DeviceTools.DeviceToolBridge.StatusArrives: the reply route kept with a status is not in the state; whether a route still holds enters as one answer per step.
- DeviceTools: reply routes, leases and the checks of the calling context enter as one answer each per step.
- Attachments.MessageDanglesIff: other calls between two files of one message, and clocks that fall back.
- Attachments: file name repair and the text projection of messages.
- ActivityBridge: signatures that suppress unchanged snapshots, context windows, goals, todos and live activities.
- ActivityBridge.SenderSeesPublishOrder: an exception of the sender counts as a send.
- LiveVoice: sessions, sockets, decoding of provider events, and the callback consumer.
- GroupsLog.ValidateLogPage: field names, identifier patterns, labels and the payload size are one answer per entry.
- GroupsLog.ReadingIsGapFree: event ids are distinct within a page only, as in the code.
- AgentTemplates: deriving a template from a profile, folders, links and permissions; a stored dictionary is taken to keep its order.
- AgentTemplates.SafeUrlAgain: the checks inside a network location are one predicate of the host name part.
- GenerativeUi: version 1 payloads, `loopdy.card`, form submissions, and which error code a refusal carries.
- Routers, HTTP and WebSocket handshakes, pairing, presentation text and everything that only calls these cores.
