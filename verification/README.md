# Verified models of the agent loop and the remote terminal protocol

This project models, in Dafny, the two parts of the repository whose correctness depends on interleavings:

- **The remote terminal protocol** (`packages/ghostty-web`). One terminal server, its attachments and their
  clients: VT output under credit flow control, the one-way switch to a conflated semantic grid, grid
  keyframes and patches, resizes with output barriers, input leases that outlive a connection, the frame
  codec, and the driver that feeds a canonical terminal's output to the server.
- **The durable agent loop** (`packages/happy-agent-base`). The message queues and the record of owed work,
  message identities, tool batches that survive crashes, the translation of tool identities at the provider
  boundary, the provider's view of the history, queue keys, scoped key-value stores, schema migrations and
  the cached child index.

## How it is organised

Objects that the source updates in place are classes (`TerminalServer.ServerConnection`,
`TerminalServer.ProtocolServer`, `TerminalClient.ProtocolClient`, `InputLease.InputWriter`,
`WireDecoder.Decoder`, `ResizeDriver.ServerDriver`, `AgentQueue.AgentRecords`, `ToolBatch.BatchCommitter`,
`ProviderMapper.IdentityMaps`, `ProviderStream.ResponseIds`, `Migrations.AgentStorage`,
`ScopedStore.AgentKV`, `ChildIndex.IndexCache`, `InputLeases.LeaseTable`). Each method is proved equal to a
function on values, and the properties are proved about those functions over every run: a list of actions in any
order, from any initial state the source can be in.

The terminal files build on each other: `TerminalState` (values and operations), `TerminalSystem` (one
attachment with its two channels), `TerminalReplay`, then three lines of results: grids (`TerminalGrid`,
`TerminalGridRuns`), VT output and resizes (`TerminalVt`, `TerminalVtRuns`, `TerminalTimeline`) and credit
(`TerminalCredit`, `TerminalCreditRuns`), with `TerminalExit` on the exit in grid mode and concrete failing runs
in `TerminalFailures`. `TerminalPublishing` says what is committed of what the host published, `TerminalWelcome`
who is replayed to, `TerminalFallback` when output that does not fit the credit gives way to a grid (with a
failing run in `TerminalForgottenGrid`), and `TerminalAnyClient` what holds whatever a client sends. Input is `InputLease` (delivery over reconnections and leases), `InputHandover` (the same
while a hand-over takes time, with failing runs in `InputRepeats`), `InputKnownLease` (a client that waits for its
first welcome), `InputLeases` (the table of leases) and `InputSession` (one attachment, with failing runs in
`InputFailures`).

`AgentQueue` holds the queue transactions and the process that asks for them; `AgentSettlement` and
`AgentIdentities` prove what is owed and which messages are held, `AgentConsumption` what is accepted and what
moves into history. `ToolBatch` is the life of a tool batch over crashes, and `ToolProvenance` says where each
result in the log comes from. `ProviderReadable` says which logs a context can be rebuilt from. Transactions are atomic and serial. A crash
may fall between any two of them and loses the heap; one that fails changes nothing durable and puts back the
heap its caller saw.

## What was found

- `#sendEncoded` evaluates `blocked ||= !write(packet)`. While a stream is blocked the packet is not written
  and not kept. A grid, a resize or output that meets a blocked stream is never sent again, and the exact
  consequences are `TerminalGridRuns.ConvergesIff`, `TerminalTimeline.DisplayIsPrefixIff` and
  `TerminalCreditRuns.CaughtUpIff`; `TerminalFailures` and `TerminalGridRuns.BlockedKeyframeIsNeverSeen` give
  runs. In one of them the process stays paused for ever although the stream is free and nothing is
  outstanding.
- A client out of credit that accepts grids is to be switched to the grid that covers the output it misses. If an
  acknowledgement arrives while that grid is awaited, `#flushPendingVt` takes it for having caught up and the
  server no longer knows that a grid is owed: the grid that covers everything comes and is not sent, and the
  client stays in VT mode without the output (`TerminalForgottenGrid.AckForgetsGrid`). That is the only way to be
  left without it (`TerminalFallback.HasAllIff`).
- An input can reach the process twice in two ways, and in no other (`InputHandover.AlwaysInOrderIff`).
  `receiveInput` awaits the hand-over of an input before the lease records it, and a client that reconnects in
  between, or after a hand-over that failed, has the input delivered again (`InputRepeats.InputIsGivenTwice`). And
  a client that has not been welcomed yet knows no lease: if its attachment ends after the server took an input
  and before the welcome arrived, it comes back without one, is given a new lease that stands at 0, and sends the
  input again (`InputRepeats.LostWelcomeRepeatsInput`). A client that writes nothing before its first welcome is
  safe from the second (`InputKnownLease.WaitingIsInOrderIff`). Under one lease nothing is lost or repeated as
  long as hand-overs do not overlap, and the client never forgets an input its lease has not let through.
- A client that writes input before its welcome loses its attachment if earlier inputs are still undelivered
  under the lease it is given, or if it writes twice (`InputSession.SessionSurvivesIff`, with runs in
  `InputFailures`).
- Queue keys stop sorting in order of acceptance after a million messages of one clock slot, and every further
  message of the slot is given one and the same key (`QueueKeys.KeysRepeatAfterMillion`). The independent
  acceptance path writes that key without checking that it is free.
- `scoped()` with no segment and with one empty segment name the same scope, the only two lists that do
  (`ScopedStore.ScopesCoincideIff`).
- A failed record transaction puts back the heap as it was when the transaction was asked for. Transactions
  that ran in between may have written the settle decision or rolled the claimed record back, and the next
  acceptance then trusts a record that is not there: its message can end up queued with nothing owed
  (`AgentSettlement.AlwaysOwedIff`, `StaleClaimLosesMessage`, `FailuresLoseMessage`).
- The settle decision looks at the steering and send queues but not at the queue of hook notices, so a run
  that ends with a notice queued leaves it with nothing owed until the record is next written
  (`AgentSettlement.StrandedIff`).
- The package README of ghostty-web says an exit is sent after the client acknowledged the output it covers.
  In VT mode the code sends it once that output was sent (`maybeSendExit`), and the model follows the code.
- The largest offset an attachment sent starts at zero even when the client resumes further on, so a VT-only
  client that resumes at the end of the output is never sent the exit (`TerminalCreditRuns.ExitIsSentIff`,
  with a run in `TerminalFailures.ExitIsNeverSent`).

## Model

| member | source | states |
|---|---|---|
| Grids.DiffGridState | packages/ghostty-web/sources/diffGridState.ts:3-33 | computes the difference function, which DiffThenApply and DiffIsMinimal characterise |
| Grids.ApplyGridPatch | packages/ghostty-web/sources/applyGridPatch.ts:3-23 | refuses a patch for another revision, otherwise overwrites rows one after the other, out-of-range indices included |
| Grids.DiffThenApply | packages/ghostty-web/sources/diffGridState.ts:3-33 | a difference exists exactly between grids of one shape, and applying it to the older grid gives the newer one |
| Grids.DiffIsMinimal | packages/ghostty-web/sources/diffGridState.ts:3-33 | a difference holds each changed row once, in order, and no unchanged row |
| TerminalReplay.CommitDataAppends | packages/ghostty-web/sources/RemoteTerminalProtocolServer.ts:456-473 | committing output of any length appends exactly it, in pieces, and what is retained stays a gapless tail of the output |
| TerminalReplay.CommitChunkRetains | packages/ghostty-web/sources/RemoteTerminalProtocolServer.ts:464-471 | after every chunk no more than the replay limit is retained, and nothing is given up that would still fit beside what is kept |
| TerminalReplay.SplitIsFewest | packages/ghostty-web/sources/RemoteTerminalProtocolServer.ts:456-463 | every piece of committed output but the last is as large as a packet may be |
| TerminalReplay.ReplayIsExact | packages/ghostty-web/sources/RemoteTerminalProtocolServer.ts:428-436 | replay from any retained offset is exactly the output from there to the end, the first chunk cut to start there |
| TerminalPublishing.StepKeepsBooks | packages/ghostty-web/sources/RemoteTerminalProtocolServer.ts:172-225 | every step commits, holds back, refuses or releases exactly what the host expects of its call, the grids in order |
| TerminalPublishing.PublishedIsCommitted | packages/ghostty-web/sources/RemoteTerminalProtocolServer.ts:475-487 | over every run committed bytes followed by held ones are the data of the accepted calls, in call order for a host that uses one way of publishing, and nothing stays held after a resize |
| TerminalPublishing.LastGridIsShown | packages/ghostty-web/sources/RemoteTerminalProtocolServer.ts:183-197 | with no resize going on the grid of the server is the last one the host published |
| TerminalPublishing.UpdatesCoverOutput | packages/ghostty-web/sources/RemoteTerminalProtocolServer.ts:211-225 | a host that publishes only updates always has a grid that covers all the output |
| TerminalWelcome.WelcomedIff | packages/ghostty-web/sources/RemoteTerminalProtocolServer.ts:669-739 | in every run a client is replayed to exactly when its offset is retained and it either has no history or returns under a lease that acknowledged that offset and every resize so far, in the same epoch and with the same parser; otherwise it gets the grid, or is refused |
| TerminalWelcome.ResizeIsRecordedIff | packages/ghostty-web/sources/RemoteTerminalProtocolServer.ts:310-345 | a resize is recorded, with the next revision, exactly when it succeeded |
| TerminalWelcome.ClientKnowsEpoch | packages/ghostty-web/sources/RemoteTerminalProtocolClient.ts:202-227 | a welcomed client counts its output in the epoch of the server, from zero if it came from another |
| TerminalFallback.AwaitedGridIsMissing | packages/ghostty-web/sources/RemoteTerminalProtocolServer.ts:583-624 | in every run a client in VT mode that awaits a grid awaits one beyond what the grid of the server covers: it is switched as soon as one covers the output it misses |
| TerminalFallback.HasAllIff | packages/ghostty-web/sources/RemoteTerminalProtocolServer.ts:832-844 | with channels empty, no output lost and a grid that covers all output, a client that accepts grids and is still in VT mode has all of it exactly when no acknowledgement arrived while a grid was awaited |
| TerminalForgottenGrid.AckForgetsGrid | packages/ghostty-web/sources/RemoteTerminalProtocolServer.ts:832-844 | a run in which an acknowledgement makes the server forget the grid a client is to be given |
| TerminalGridRuns.ConvergesIff | packages/ghostty-web/sources/RemoteTerminalProtocolServer.ts:583-602 | with both channels empty and the stream free, client and server show the same grid exactly when no grid packet met a blocked stream or the revision last acknowledged is still the server's |
| TerminalGridRuns.LostGridFreezesClient | packages/ghostty-web/sources/RemoteTerminalProtocolServer.ts:855-859 | after a grid packet met a blocked stream nothing changes what the client shows while the attachment lasts |
| TerminalGridRuns.OneGridInFlight | packages/ghostty-web/sources/RemoteTerminalProtocolServer.ts:756-768 | at most one grid is unacknowledged, a queued grid is the server's current one, and with none in flight the client holds what it acknowledged |
| TerminalGridRuns.PatchesApplyInOrder | packages/ghostty-web/sources/RemoteTerminalProtocolClient.ts:253-281 | every grid packet handed to the client applies to the grid it holds, yields the grid in flight and is acknowledged; revisions never go back |
| TerminalGridRuns.NextGridIsPatched | packages/ghostty-web/sources/RemoteTerminalProtocolServer.ts:875-889 | with nothing in flight a new grid is sent as the changed rows, and in full exactly when there is no grid of its shape before it |
| TerminalGridRuns.BlockedKeyframeIsNeverSeen | packages/ghostty-web/sources/RemoteTerminalProtocolServer.ts:715-733 | a run in which the welcome fills the stream and the opening keyframe never reaches the client |
| TerminalVtRuns.AnnounceTracked | packages/ghostty-web/sources/RemoteTerminalProtocolServer.ts:310-345 | nothing is committed between taking a resize barrier and announcing it |
| TerminalVtRuns.StepTracked | packages/ghostty-web/sources/RemoteTerminalProtocolServer.ts:456-504 | every step keeps: packets carry committed bytes, no output stands behind the resize that ended it, every announced resize is applied, on the wire or was handed to a blocked stream |
| TerminalVtRuns.DeliveredTracked | packages/ghostty-web/sources/RemoteTerminalProtocolClient.ts:197-322 | the same, for the client's handling of one packet |
| TerminalTimeline.TimelinePrefixIff | packages/ghostty-web/sources/RemoteTerminalProtocolClient.ts:294-322 | an interleaving of fewer bytes is a prefix of another exactly when it holds the resizes that fall within it |
| TerminalTimeline.DisplayIsPrefixIff | packages/ghostty-web/sources/RemoteTerminalProtocolClient.ts:229-322 | a VT client's bytes are the committed ones from its resume offset, and bytes and resizes interleaved are a prefix of the committed log exactly when no resize announcement was refused by a blocked stream and overtaken |
| TerminalVtRuns.ExitComesLast | packages/ghostty-web/sources/RemoteTerminalProtocolClient.ts:333-341 | in every run a client that accepts the exit has applied all the output from its resume offset, or holds a grid that covers it, and the exit is at the end of the output |
| TerminalFailures.BlockedResizeIsSkipped | packages/ghostty-web/sources/RemoteTerminalProtocolServer.ts:855-859 | a run in which a client shows output that follows a resize it never heard of |
| TerminalCredit.PublishAllFlow | packages/ghostty-web/sources/RemoteTerminalProtocolServer.ts:604-624 | publishing output keeps the credit accounting: sent within credit, the rest queued without a gap |
| TerminalCredit.SendQueuedFlow | packages/ghostty-web/sources/RemoteTerminalProtocolServer.ts:832-844 | flushing the queue sends what fits and keeps the accounting |
| TerminalCredit.AckFlow | packages/ghostty-web/sources/RemoteTerminalProtocolServer.ts:743-755 | an acknowledgement of applied output is accepted and keeps the accounting |
| TerminalCreditRuns.ExitIsSentIff | packages/ghostty-web/sources/RemoteTerminalProtocolServer.ts:640-662 | after the exit a VT-only client is handed it exactly when its queue is empty and it did not resume at the end of a nonempty output |
| TerminalFailures.ExitIsNeverSent | packages/ghostty-web/sources/RemoteTerminalProtocolServer.ts:640-662 | a run in which a VT-only client resumes at the end of the output, nothing is lost or outstanding, and the exit is not sent |
| TerminalExit.CoveredExitIsSentIff | packages/ghostty-web/sources/RemoteTerminalProtocolServer.ts:640-662 | in grid mode, with both channels empty, the stream free and no grid packet lost, the exit was sent exactly when at some point since the process exited a grid that covers it was acknowledged, in flight or current |
| TerminalCreditRuns.CreditBounded | packages/ghostty-web/sources/RemoteTerminalProtocolServer.ts:604-624 | in every run of a VT-only attachment: unacknowledged output stays within credit, the queue is exactly the output not yet sent and within the buffer limit, a queue implies unacknowledged output, and the process is paused exactly while a writer's queue is not empty |
| TerminalCreditRuns.OutputConserved | packages/ghostty-web/sources/RemoteTerminalProtocolServer.ts:832-853 | applied, in flight and queued output together are exactly the output since the resume offset unless an output packet met a blocked stream |
| TerminalCreditRuns.NeverStuck | packages/ghostty-web/sources/RemoteTerminalProtocolServer.ts:832-844 | while a queue exists some output or its acknowledgement is on its way, unless an output packet met a blocked stream |
| TerminalCreditRuns.AcksAreAccepted | packages/ghostty-web/sources/RemoteTerminalProtocolServer.ts:743-755 | the server refuses none of the acknowledgements its client sends, and each one frees credit |
| TerminalAnyClient.AnyClientIsHeldToCredit | packages/ghostty-web/sources/RemoteTerminalProtocolServer.ts:741-767 | whatever a client sends, an attachment that stays open in VT mode acknowledged only output that was sent, never less than before, and was sent no more than its credit beyond that |
| TerminalAnyClient.RefusedIsReleased | packages/ghostty-web/sources/RemoteTerminalProtocolServer.ts:570-581 | a client that is refused no longer holds the process |
| TerminalCreditRuns.CaughtUpIff | packages/ghostty-web/sources/RemoteTerminalProtocolServer.ts:896-899 | with both channels empty the client has all output and nothing is queued exactly when no output packet met a blocked stream |
| TerminalFailures.BlockedOutputStalls | packages/ghostty-web/sources/RemoteTerminalProtocolServer.ts:855-859 | a run that ends with the process paused, the stream free and nothing outstanding |
| TerminalServer.ServerConnection.Send | packages/ghostty-web/sources/RemoteTerminalProtocolServer.ts:855-859 | a closed connection sends nothing, a blocked one loses the packet |
| TerminalServer.ServerConnection.Initialize | packages/ghostty-web/sources/RemoteTerminalProtocolServer.ts:669-739 | negotiation, welcome, replay or opening keyframe as the connection function describes them |
| TerminalServer.ServerConnection.Replay | packages/ghostty-web/sources/RemoteTerminalProtocolServer.ts:717-726 | the replay loop publishes every retained chunk in order |
| TerminalServer.ServerConnection.PublishOutput | packages/ghostty-web/sources/RemoteTerminalProtocolServer.ts:604-624 | one chunk is sent, queued or left to the grid, and only this connection's pause membership changes |
| TerminalServer.ServerConnection.PublishGrid | packages/ghostty-web/sources/RemoteTerminalProtocolServer.ts:583-602 | one grid is sent, queued or switched to |
| TerminalServer.ServerConnection.FlushPendingVt | packages/ghostty-web/sources/RemoteTerminalProtocolServer.ts:832-844 | the flush loop sends queued chunks while they fit and resumes the process once none is left |
| TerminalServer.ServerConnection.SwitchToGrid | packages/ghostty-web/sources/RemoteTerminalProtocolServer.ts:901-914 | the switch gives up queued output and announces the grid |
| TerminalServer.ServerConnection.MaybeSendExit | packages/ghostty-web/sources/RemoteTerminalProtocolServer.ts:640-662 | an exit is sent once in VT mode after everything was sent, in grid mode after a covering acknowledgement |
| TerminalServer.ServerConnection.Receive | packages/ghostty-web/sources/RemoteTerminalProtocolServer.ts:741-804 | acknowledgements and resyncs act as the transition system says |
| TerminalServer.ProtocolServer.SetFlowPaused | packages/ghostty-web/sources/RemoteTerminalProtocolServer.ts:361-372 | the host's notifications strictly alternate, starting with a pause, and the last one says whether any writer is paused |
| TerminalServer.ProtocolServer.Detach | packages/ghostty-web/sources/RemoteTerminalProtocolServer.ts:158-169 | an attachment whose stream closed is forgotten, its pause is lifted, and every other attachment stays as it is |
| TerminalServer.ProtocolServer.ReplayAfter | packages/ghostty-web/sources/RemoteTerminalProtocolServer.ts:428-436 | computes the replay that ReplayIsExact is about |
| TerminalServer.ProtocolServer.RetainChunk | packages/ghostty-web/sources/RemoteTerminalProtocolServer.ts:464-471 | appends one chunk and trims the oldest beyond the limit |
| TerminalServer.ProtocolServer.CommitOutput | packages/ghostty-web/sources/RemoteTerminalProtocolServer.ts:456-473 | takes every attachment through the commit step of the transition system, for any number of attachments |
| TerminalServer.ProtocolServer.CommitGrid | packages/ghostty-web/sources/RemoteTerminalProtocolServer.ts:448-454 | takes every attachment through the grid commit step |
| TerminalServer.ProtocolServer.PublishOutput | packages/ghostty-web/sources/RemoteTerminalProtocolServer.ts:199-209 | takes every attachment through the publish step, refused calls change nothing |
| TerminalServer.ProtocolServer.PublishGrid | packages/ghostty-web/sources/RemoteTerminalProtocolServer.ts:183-197 | takes every attachment through the grid publish step |
| TerminalServer.ProtocolServer.PublishUpdate | packages/ghostty-web/sources/RemoteTerminalProtocolServer.ts:211-225 | takes every attachment through the update step |
| TerminalServer.ProtocolServer.FlushDeferredOutput | packages/ghostty-web/sources/RemoteTerminalProtocolServer.ts:475-487 | commits deferred outputs, then updates, then grids |
| TerminalServer.ProtocolServer.EndResize | packages/ghostty-web/sources/RemoteTerminalProtocolServer.ts:318-341 | announces a successful resize to every attachment at its barrier before deferred output is committed |
| TerminalServer.ProtocolServer.PublishExit | packages/ghostty-web/sources/RemoteTerminalProtocolServer.ts:172-181 | records the exit at the end of the output and offers it to every attachment |
| TerminalClient.ProtocolClient.Receive | packages/ghostty-web/sources/RemoteTerminalProtocolClient.ts:197-344 | one packet changes the client as the client function describes |
| InputLease.InputWriter.Write | packages/ghostty-web/sources/RemoteTerminalProtocolClient.ts:181-190 | an input is recorded before it is sent, within the size and count limits |
| InputLease.InputWriter.OnWelcome | packages/ghostty-web/sources/RemoteTerminalProtocolClient.ts:202-227 | resends every pending input the server has not received and forgets the others |
| InputLease.InputWriter.OnAck | packages/ghostty-web/sources/RemoteTerminalProtocolClient.ts:282-293 | an acknowledgement out of order is refused, any other prunes the pending inputs |
| InputLease.DeliveredOnceInOrder | packages/ghostty-web/sources/RemoteTerminalProtocolServer.ts:227-289 | over any reconnections, lost welcomes and replies, late packets and evictions: under each lease the process got exactly the first inputs written, once and in order, and the client still holds every input the lease it knows has not let through (all of them while it knows none); a hand-over counts as one step here |
| InputLease.ForgetsAcknowledged | packages/ghostty-web/sources/RemoteTerminalProtocolClient.ts:181-190 | in every run a welcomed client keeps only inputs that were not acknowledged, the last ones written, and takes another exactly while it holds fewer than 1024 and the input is at most 64 KB |
| InputLease.LeaseIsResumed | packages/ghostty-web/sources/RemoteTerminalProtocolServer.ts:234-248 | in every run a client that asks for a lease whose attachment was closed is given it, where it stands |
| InputHandover.AlwaysInOrderIff | packages/ghostty-web/sources/RemoteTerminalProtocolServer.ts:277-289 | with the hand-over and the advance of the lease apart, every input reaches the process once and in order exactly when none is handed over while an earlier hand-over is unrecorded, and none under one lease after others under another |
| InputHandover.GivenIsWritten | packages/ghostty-web/sources/RemoteTerminalProtocolServer.ts:277-289 | in such a run the process was given exactly the first inputs written, with their data, and the client still holds all the others |
| InputKnownLease.WaitingIsInOrderIff | packages/ghostty-web/sources/RemoteTerminalProtocolClient.ts:181-227 | for a client that writes nothing until a welcome has named its lease only overlapping hand-overs can repeat an input |
| InputRepeats.InputIsGivenTwice | packages/ghostty-web/sources/RemoteTerminalProtocolServer.ts:277-289 | a run in which a client that reconnects during a hand-over has its input delivered twice under one lease |
| InputRepeats.LostWelcomeRepeatsInput | packages/ghostty-web/sources/RemoteTerminalProtocolServer.ts:246-263 | a run without overlapping hand-overs in which a client whose first welcome is lost is given a second lease and has its input delivered twice |
| InputLeases.LeaseTable.ClaimInputLease | packages/ghostty-web/sources/RemoteTerminalProtocolServer.ts:227-264 | a writer gets the lease it asks for, any other attachment a new one for which the oldest idle lease gives way |
| InputLeases.ClaimRefusedIff | packages/ghostty-web/sources/RemoteTerminalProtocolServer.ts:227-264 | a claim is refused exactly when the lease asked for is gone or held by another attachment, or all leases allowed are held |
| InputLeases.ClaimKeepsHeld | packages/ghostty-web/sources/RemoteTerminalProtocolServer.ts:247-251 | no claim takes a lease from the attachment that holds it |
| InputLeases.ReleasedIsClaimable | packages/ghostty-web/sources/RemoteTerminalProtocolServer.ts:271-275 | a lease that was let go keeps what it let through and can be claimed, and no other lease changes |
| InputLeases.LeaseRemembers | packages/ghostty-web/sources/RemoteTerminalProtocolServer.ts:291-308 | a lease in the table remembers the offset, the revision and the input acknowledged last under its token, and changes hands only by a claim or a release |
| InputLeases.LeaseTable.AcknowledgeOutput | packages/ghostty-web/sources/RemoteTerminalProtocolServer.ts:291-296 | records the offset under the lease of the token and under no other, and refuses an unknown token |
| InputLeases.LeaseTable.AcknowledgeResize | packages/ghostty-web/sources/RemoteTerminalProtocolServer.ts:298-308 | records a revision that is not older than the one known nor newer than the current one, and refuses any other |
| InputLeases.LeaseTable.AdmitInput | packages/ghostty-web/sources/RemoteTerminalProtocolServer.ts:277-285 | refuses an input without a writable lease or with a gap, ignores a repeated one, and hands over the next |
| InputLeases.LeaseTable.RecordInput | packages/ghostty-web/sources/RemoteTerminalProtocolServer.ts:286-288 | after the hand-over the lease, if it is still in the table, stands at that input |
| InputLeases.LeasesCountInputsIff | packages/ghostty-web/sources/RemoteTerminalProtocolServer.ts:277-289 | over any claims, evictions, inputs and recordings the inputs handed over under a token are 1, 2, 3 and so on exactly when none is handed over under it while another is unrecorded; then its lease stands at the last one recorded and at most one is not |
| InputLeases.ViewersWriteNothing | packages/ghostty-web/sources/RemoteTerminalProtocolServer.ts:277-283 | the table stays within its bound, no token is in it twice, and nothing is handed over under a viewer's lease |
| InputSession.SessionSurvivesIff | packages/ghostty-web/sources/RemoteTerminalProtocolClient.ts:181-227 | a settled attachment survived exactly when the client wrote nothing before its welcome, or one input with none undelivered under the lease it is given |
| InputFailures.TwoEarlyWritesClose | packages/ghostty-web/sources/RemoteTerminalProtocolClient.ts:282-293 | a run in which two inputs written before the welcome make the client close its attachment |
| InputFailures.EarlyWriteLeavesGap | packages/ghostty-web/sources/RemoteTerminalProtocolServer.ts:285-285 | a run in which one input written before the welcome overtakes an undelivered one and the server fails the attachment |
| WireFormat.FrameParses | packages/ghostty-web/sources/encodeWirePacket.ts:7-32 | an encoded packet followed by anything parses back to itself, compressed or not |
| WireFormat.ParsesIff | packages/ghostty-web/sources/WirePacketDecoder.ts:40-91 | a stream is read as a packet exactly when it starts with a well-formed frame of it, and waited for exactly while an admissible frame is incomplete |
| WireFormat.FramesParse | packages/ghostty-web/sources/encodeWirePacket.ts:7-32 | a stream of encoded packets parses to exactly those packets |
| WireFormat.ParseAllConcat | packages/ghostty-web/sources/WirePacketDecoder.ts:40-91 | parsing in two pieces, carrying the unfinished part over, gives what parsing the whole gives |
| WireDecoder.EncodeWirePacket | packages/ghostty-web/sources/encodeWirePacket.ts:7-32 | writes the frame field by field into a buffer, and refuses exactly what the header cannot carry |
| WireDecoder.Decoder.Push | packages/ghostty-web/sources/WirePacketDecoder.ts:40-91 | one read yields what parsing the held bytes and the new ones yields, within the limits, and the byte count stays the sum of the nonempty chunks |
| WireDecoder.Decoder.Consume | packages/ghostty-web/sources/WirePacketDecoder.ts:93-106 | drops exactly that many bytes from the front of the chunks |
| WireDecoder.Decoder.Peek | packages/ghostty-web/sources/WirePacketDecoder.ts:108-120 | returns the first bytes across chunk boundaries |
| WireDecoder.Decoder.Read | packages/ghostty-web/sources/WirePacketDecoder.ts:122-139 | takes exactly that many bytes from the front |
| WireDecoder.BatchLimitIff | packages/ghostty-web/sources/WirePacketDecoder.ts:49-52 | the batch limit is met exactly when a read completes more packets than allowed, or as many with another header present |
| WireDecoder.ReadsPassIff | packages/ghostty-web/sources/WirePacketDecoder.ts:40-91 | the reads of a stream all succeed exactly when each fits the limits and what it completes is well formed, and then deliver what the whole stream holds |
| WireDecoder.PushesParseWhole | packages/ghostty-web/sources/WirePacketDecoder.ts:40-91 | however a stream is cut into reads that meet no limit, they decode or fail as the whole stream does |
| WireDecoder.EncodedPacketsArrive | packages/ghostty-web/sources/WirePacketDecoder.ts:40-91 | encoded packets cut into reads in any way come out as they went in exactly when every read fits the limits |
| ResizeDriver.ServerDriver.PublishOutput | packages/ghostty-web/sources/GhosttyRemoteTerminal.ts:111-133 | output is queued, held during a resize, or refused at the limit |
| ResizeDriver.ServerDriver.FinishResize | packages/ghostty-web/sources/GhosttyRemoteTerminal.ts:166-178 | held output is queued in order after a resize, or given up when it failed |
| ResizeDriver.OutputIsConserved | packages/ghostty-web/sources/GhosttyRemoteTerminal.ts:111-211 | committed output is a prefix of what was accepted, without failures the rest is queued and then held, and the byte count matches and stays within the limit |
| ResizeDriver.NothingCommittedDuringResize | packages/ghostty-web/sources/GhosttyRemoteTerminal.ts:135-179 | no step commits output while the terminal is being resized |
| ResizeDriver.HeldLimitIsRedundant | packages/ghostty-web/sources/GhosttyRemoteTerminal.ts:120-127 | the limit on held output never refuses what the limit on queued output let through |
| ResizeDriver.ExitCoversOutput | packages/ghostty-web/sources/GhosttyRemoteTerminal.ts:181-186 | without failures the exit is placed after all accepted output |
| ResizeDriver.AcceptsIff | packages/ghostty-web/sources/GhosttyRemoteTerminal.ts:111-133 | output is taken exactly until an exit is asked for and while it fits the limit with what waits; an overflow fails the protocol |
| ResizeDriver.ResizeEnds | packages/ghostty-web/sources/GhosttyRemoteTerminal.ts:135-179 | a resize can be performed once the queue was committed, and held output then waits in the queue, or is given up with the protocol failed |
| ResizeDriver.ExitComes | packages/ghostty-web/sources/GhosttyRemoteTerminal.ts:181-211 | an exit that waits for no resize is placed once the queue was committed |
| AgentQueue.AgentRecords.EnqueueIndependently | packages/happy-agent-base/sources/AgentBase.ts:1346-1419 | a batch is accepted message by message, repeated identities are reported as existing, and new work is recorded as owed |
| AgentQueue.AgentRecords.EnterSettlementStage | packages/happy-agent-base/sources/AgentBase.ts:2318-2335 | the settle decision is recorded exactly when every queued message was abandoned |
| AgentQueue.AgentRecords.SettleRecord | packages/happy-agent-base/sources/AgentBase.ts:2356-2400 | erases the owed record, or reopens it when work arrived since the decision |
| AgentQueue.AgentRecords.DeleteRecordIdentities | packages/happy-agent-base/sources/AgentBase.ts:3646-3653 | forgets the identities of exactly the messages in the log |
| AgentSettlement.StepOwing | packages/happy-agent-base/sources/AgentBase.ts:1095-1123 | every transaction keeps: an inference record the heap claims is there or replaced by other owed work, and without owed work every queued message was dropped |
| AgentSettlement.AlwaysOwedIff | packages/happy-agent-base/sources/AgentBase.ts:3658-3681 | over every interleaving of transactions asked for, committed, failed and crashed, nothing accepted is left without owed work exactly when no failed transaction, and no acceptance taking up the record it staged, puts back the claim to an inference record while the store holds no owed work |
| AgentSettlement.QueuedMessageIsOwed | packages/happy-agent-base/sources/AgentBase.ts:2306-2400 | in those runs a queued message whose turn was not dropped has work owed, and settling keeps it owed |
| AgentSettlement.LateMessageReopens | packages/happy-agent-base/sources/AgentBase.ts:1346-1497 | in those runs a message accepted after the settle decision reopens the record |
| AgentSettlement.StaleClaimLosesMessage | packages/happy-agent-base/sources/AgentBase.ts:3658-3681 | a run in which an acceptance that waited behind the settle decision fails, and the message accepted next ends up with nothing owed |
| AgentSettlement.FailuresLoseMessage | packages/happy-agent-base/sources/AgentBase.ts:1095-1123 | a run in which two overlapping acceptances fail and the third commits without a record of the work it owes |
| AgentSettlement.StrandedIff | packages/happy-agent-base/sources/AgentBase.ts:2318-2335 | over those runs a hook notice is queued with no work owed exactly when a settle decision was written over a queued notice and the record was not rewritten since |
| AgentSettlement.NoticesOwedIff | packages/happy-agent-base/sources/AgentBase.ts:2318-2335 | notices stay owed throughout such a run exactly when no settle decision is written while one is queued |
| AgentSettlement.NoticeIsStranded | packages/happy-agent-base/sources/AgentBase.ts:2318-2335 | a run in which a hook notice queued before the settle decision ends up with nothing owed |
| AgentIdentities.ConsumeIdentified | packages/happy-agent-base/sources/AgentBase.ts:3937-4101 | consuming moves the oldest messages of a kind to the end of the log in order, after erasing it on a reset, and keeps every identity accounted for |
| AgentConsumption.ConsumesOldest | packages/happy-agent-base/sources/AgentBase.ts:4004-4034 | in every run consuming moves the queued messages of the kind with the smallest keys to the end of history, by increasing keys and as many as asked for or there are; all others stay queued in order |
| AgentConsumption.AcceptsNewOnes | packages/happy-agent-base/sources/AgentBase.ts:1346-1419 | a batch appends exactly its new requests to the queue, each with its own kind and identity |
| AgentConsumption.CreatedIsNew | packages/happy-agent-base/sources/AgentBase.ts:1346-1419 | the answer to a batch says of each request whether it was new |
| AgentConsumption.StepFrame | packages/happy-agent-base/sources/AgentBase.ts:3937-4101 | only an acceptance adds to the queue, only consuming takes from it, and history only grows but for a replacement and a reset |
| AgentConsumption.InferenceIsOwed | packages/happy-agent-base/sources/AgentBase.ts:1095-1123 | after every step that asks for it work is owed and the process knows the record of it |
| AgentConsumption.SettlesIff | packages/happy-agent-base/sources/AgentBase.ts:2356-2400 | settling leaves nothing owed exactly when no work is, and otherwise owes an inference under the new identities |
| AgentIdentities.ReplaceIdentified | packages/happy-agent-base/sources/AgentBase.ts:3469-3498 | replacing history forgets exactly the identities it held |
| AgentIdentities.EachMessageHeldOnce | packages/happy-agent-base/sources/AgentBase.ts:1350-1378 | an identity is on record exactly when its message is queued or in history, and then in one of them, once |
| AgentIdentities.RetryIsAcceptedIff | packages/happy-agent-base/sources/AgentBase.ts:2985-3038 | a repeated identity is accepted again exactly when its message is no longer held, which only erasing history brings about |
| ToolBatch.BatchCommitter.CommitReady | packages/happy-agent-base/sources/AgentBase.ts:4406-4474 | commits in call order up to the first call without a result; a failed commit stops there for good |
| ToolBatch.BatchCommitter.Finish | packages/happy-agent-base/sources/AgentBase.ts:4476-4545 | records one call's result and commits what is ready |
| ToolBatch.CommitAll | packages/happy-agent-base/sources/AgentBase.ts:4394-4474 | for every order of completion, without failures the last one commits the whole batch: one record for each call, in call order, with its first durable claim or else the outcome of its own execution |
| ToolBatch.WholeBatchIff | packages/happy-agent-base/sources/AgentBase.ts:4394-4474 | in every run, results and claims arriving at any moment: a batch with nothing left to commit and no failed transaction has no entry left exactly when every result is in, and then the log ends with one record for each of its calls, in call order |
| ToolBatch.EveryCallAnsweredOnce | packages/happy-agent-base/sources/AgentBase.ts:4357-4474 | over any crashes and restarts the result records followed by the pending entries are exactly the calls dispatched, each once, in order |
| ToolBatch.FirstClaimIsRecorded | packages/happy-agent-base/sources/AgentBase.ts:4821-4875 | the first result claimed durably for a call is the one the log records |
| ToolBatch.UnsafeToolsRunOnce | packages/happy-agent-base/sources/AgentBase.ts:4476-4510 | a tool neither durable nor reloadable is started at most once, and no call is started while an earlier execution of it is running |
| ToolProvenance.StartsIff | packages/happy-agent-base/sources/AgentBase.ts:4476-4510 | in every run a pending call is started exactly when it has no stored result, was not aborted, and its batch is not a resumed one or its tool may be retried; otherwise it is answered with the stored, the interrupted or the abort result |
| ToolProvenance.RestartRetriesIff | packages/happy-agent-base/sources/AgentBase.ts:2661-2685 | after a crash the pending calls are resumed, and one is started again exactly when it has no stored result and its tool may be retried |
| ToolProvenance.ClaimedIsNotRestarted | packages/happy-agent-base/sources/AgentBase.ts:4843-4862 | a call with a durable claim is not started again after a restart but answered, retryable or not |
| ToolProvenance.ResultsHaveSources | packages/happy-agent-base/sources/AgentBase.ts:4476-4545 | over any crashes every logged result is the first durable claim of its call, the reason it was never dispatched, what its execution returned, the abort result after an abort, or the interrupted result of a call of a resumed batch that may not be retried |
| ToolProvenance.ResultsStand | packages/happy-agent-base/sources/AgentBase.ts:4510-4545 | the first result of a call is never replaced but by its durable claim |
| ToolProvenance.EndsAnswer | packages/happy-agent-base/sources/AgentBase.ts:4510-4545 | the first thing to end a call, its execution or an abort, gives it its result |
| ToolBatch.StepSound | packages/happy-agent-base/sources/AgentBase.ts:3550-3622 | every step of a batch, a settlement of undispatched calls or a crash keeps those invariants |
| ToolBatch.EntryKeysKeepOrder | packages/happy-agent-base/sources/AgentBase.ts:4690-4692 | entry keys sort in batch order for batches of up to a million calls |
| ProviderMapper.AcceptContext | packages/happy-agent-base/sources/AgentProviderContext.ts:102-161 | the mutating pass over messages and blocks computes the identity assignment |
| ProviderMapper.IdentityMaps.FreshId | packages/happy-agent-base/sources/AgentProviderContext.ts:119-126 | keeps a portable ID that is free, else draws until the generator returns an unused one |
| ProviderContext.ProviderRoundTrip | packages/happy-agent-base/sources/AgentProviderContext.ts:89-161 | an accepted context translated back is the context the provider sent |
| ProviderPairing.ResultsMatchCalls | packages/happy-agent-base/sources/AgentProviderContext.ts:127-138 | when results follow calls, the n-th result of a provider ID gets the n-th call's base ID |
| ProviderPairing.CallsReusePrevious | packages/happy-agent-base/sources/AgentProviderContext.ts:107-133 | the n-th call of a provider ID keeps the n-th base ID it had before |
| ProviderPairing.SuitableContextIsAccepted | packages/happy-agent-base/sources/AgentProviderContext.ts:111-138 | a context is never refused while generated IDs are new and kept IDs clash with nothing |
| ProviderPairing.DuplicateMappingIff | packages/happy-agent-base/sources/AgentProviderContext.ts:103-110 | a context is refused for a base ID standing for two provider IDs exactly when a use takes up a known base ID that the context had meanwhile given to another provider ID |
| ProviderRefusals.RefusedIff | packages/happy-agent-base/sources/AgentProviderContext.ts:107-160 | read off the context and the previous map: with new generated IDs a context is refused exactly when a use keeps a provider ID that is a known base ID of another provider ID and a later use, by its count, takes that base ID up |
| ProviderRefusals.NeverRefused | packages/happy-agent-base/sources/AgentProviderContext.ts:102-106 | a context is never refused when no provider ID may be kept or nothing was known before |
| ProviderRefusals.KeptIdIsRefused | packages/happy-agent-base/sources/AgentProviderContext.ts:111-124 | a context of two calls that is refused |
| ProviderRecords.ContextFromRecords | packages/happy-agent-base/sources/AgentProviderContext.ts:171-221 | the replay loop over the records |
| ProviderRecords.LogRebuildsConversation | packages/happy-agent-base/sources/AgentProviderContext.ts:60-86 | the log of a conversation reads back exactly when its identities are well formed, as the conversation with adjacent assistant messages merged and the map of the identities it mentions in order of first mention |
| ProviderRecords.MentionsInOrder | packages/happy-agent-base/sources/AgentProviderContext.ts:174-183 | that order holds each identity mentioned once, and one that stands earlier is mentioned before the later one first is |
| ProviderReadable.ReadableIff | packages/happy-agent-base/sources/AgentProviderContext.ts:171-221 | a log reads back exactly when its tool blocks and results carry well-formed base IDs that agree and every identity of a whole message is named since the last compaction; the map then holds exactly what was named since it |
| ProviderReload.MergedIff | packages/happy-agent-base/sources/AgentProviderContext.ts:208-217 | merging gives the one conversation with the same blocks and other messages in the same order in which no two assistant messages are adjacent and none is empty |
| ProviderReload.ReloadRestoresContext | packages/happy-agent-base/sources/AgentProviderContext.ts:90-221 | a context accepted from the provider, recorded and read back has the same identity map in the same order and translates to what the provider sent with assistant messages merged; reading back fails exactly when an identity is malformed |
| ProviderRecords.CompactionForgets | packages/happy-agent-base/sources/AgentProviderContext.ts:184-190 | records before a compaction count for nothing unless they made the log unreadable |
| ProviderRecords.CompactionRestores | packages/happy-agent-base/sources/AgentProviderContext.ts:164-168 | a compaction of a translatable context reads back as that context, identity order included |
| ProviderStream.ResponseIds.BaseSessionEvent | packages/happy-agent-base/sources/AgentProviderContext.ts:14-57 | one stream event changes the two identity maps as described |
| ProviderStream.CallKeepsItsId | packages/happy-agent-base/sources/AgentProviderContext.ts:30-56 | every event of an open call carries the base ID its start was given |
| ProviderStream.OpenCallsDiffer | packages/happy-agent-base/sources/AgentProviderContext.ts:30-40 | two open calls never share a base ID |
| ProviderStream.PersistedSurvives | packages/happy-agent-base/sources/AgentProviderContext.ts:20-29 | a reset never drops the mapping of a persisted tool block |
| ProviderStream.ContextIff | packages/happy-agent-base/sources/AgentProviderContext.ts:20-40 | after a stream a base ID is mapped exactly when it was, or a call started under it, and the first reset since, if it is of that response, found it persisted; no mapping that stands is changed |
| ProviderStream.RefusedIff | packages/happy-agent-base/sources/AgentProviderContext.ts:30-56 | an event is refused exactly when it starts a call that is open or is a part of one that is not |
| ProviderView.MessagesForProvider | packages/happy-agent-base/sources/AgentBase.ts:4603-4636 | the two passes compute the view |
| ProviderView.ViewPlacesResults | packages/happy-agent-base/sources/AgentBase.ts:4620-4634 | other messages keep their order, and of each call ID as many results are shown, in order, as there are calls |
| ProviderView.ViewShows | packages/happy-agent-base/sources/AgentBase.ts:4603-4636 | of the messages that are not results exactly the user messages without content are not shown |
| ProviderView.CallsAre | packages/happy-agent-base/sources/AgentBase.ts:4608-4619 | results are moved for exactly the calls that the client runs and not the provider |
| ProviderView.ViewIsStable | packages/happy-agent-base/sources/AgentBase.ts:4597-4602 | the view leaves a conversation alone exactly when it is already ordered, and is idempotent |
| ProviderView.OrderIsTidy | packages/happy-agent-base/sources/AgentBase.ts:4620-4634 | in the view every result stands in the run directly after its call, in block order |
| ProviderView.ViewIsPermutationIff | packages/happy-agent-base/sources/AgentBase.ts:4603-4636 | the view is the history rearranged, less empty user messages, exactly when no call ID has more results than calls |
| QueueKeys.NextKeyIsLaterIff | packages/happy-agent-base/sources/AgentBase.ts:5037-5050 | a new key sorts after the last one exactly when the clock passed its slot or the slot's sequence is not at the end of its width |
| QueueKeys.KeyOrderIsAcceptanceOrderIff | packages/happy-agent-base/sources/AgentBase.ts:5031-5050 | over any run and any readings of the clock key order is acceptance order throughout exactly when no message is accepted in the slot of a last key whose sequence is at the end of its width, however many were accepted in all |
| QueueKeys.KeysRepeatWithoutRoom | packages/happy-agent-base/sources/AgentBase.ts:5037-5050 | from such a last key on, every further message accepted in its slot is given one and the same key, which sorts before the last |
| QueueKeys.KeysRepeatAfterMillion | packages/happy-agent-base/sources/AgentBase.ts:5037-5050 | a million messages of one slot get distinct keys in order and all that follow in it share a single one |
| QueueKeys.SmallHasRoom | packages/happy-agent-base/sources/AgentBase.ts:5037-5050 | while no queued sequence has reached 999999 there is room |
| QueueKeys.ClaimQueueKey | packages/happy-agent-base/sources/AgentBase.ts:5057-5065 | claims the first free sequence number within a thousand attempts |
| Migrations.AgentStorage.Migrate | packages/happy-agent-base/sources/AgentStorage.ts:163-225 | checks every ledger before applying anything, then applies one transaction at a time, and may stop after any of them |
| Migrations.RefusedIff | packages/happy-agent-base/sources/AgentStorage.ts:190-201 | a migration is refused exactly when names or keys are malformed or some ledger is not a prefix of its list |
| Migrations.MigrationKeepsFaith | packages/happy-agent-base/sources/AgentStorage.ts:206-224 | wherever a migration stops, effects match ledgers and ledgers are prefixes; one that did not stop leaves them equal to the lists |
| Migrations.EffectsOccurOnce | packages/happy-agent-base/sources/AgentStorage.ts:154-162 | over any number of starts of any builds no migration takes effect twice |
| OrderedStore.PrefixSuccessor | packages/happy-agent-base/sources/AgentPersistenceDrizzle.ts:197-204 | computes the bound RangeIsPrefix is about |
| OrderedStore.RangeIsPrefix | packages/happy-agent-base/sources/AgentPersistenceDrizzle.ts:85-105 | for stored text, lying in the key range of a well-formed prefix is the same as starting with it, and no prefix loses a key to its range |
| OrderedStore.BytewiseIsPointwise | packages/happy-agent-base/sources/AgentPersistenceDrizzle.ts:85-92 | comparing UTF-8 bytes is comparing code points |
| ScopedStore.Persistence.ReadValues | packages/happy-agent-base/sources/AgentPersistenceDrizzle.ts:81-108 | the range and prefix test returns exactly the rows under the prefix, in key order |
| ScopedStore.AgentKV.Read | packages/happy-agent-base/sources/AgentKV.ts:61-66 | reads exactly the value of its own key |
| ScopedStore.AgentKV.Clear | packages/happy-agent-base/sources/AgentKV.ts:163-169 | removes exactly the rows under the scope's prefix |
| ScopedStore.UpsertLooksUp | packages/happy-agent-base/sources/AgentPersistenceDrizzle.ts:110-122 | a write replaces exactly the value of its own key |
| ScopedStore.WithoutLooksUp | packages/happy-agent-base/sources/AgentPersistenceDrizzle.ts:139-147 | deleting a key leaves the value of every other |
| ScopedStore.UnderIs | packages/happy-agent-base/sources/AgentPersistenceDrizzle.ts:81-108 | the rows under a prefix are exactly the rows whose key starts with it, in key order |
| ScopedStore.OutsideIs | packages/happy-agent-base/sources/AgentKV.ts:163-169 | the rows left by clearing a scope are exactly the others, in key order |
| ScopedStore.ScopesArePrefixCode | packages/happy-agent-base/sources/AgentKV.ts:30-45 | a scope lies inside another exactly when its segment list extends the other's, the empty list counting as one empty segment |
| ScopedStore.NarrowingComposesIff | packages/happy-agent-base/sources/AgentKV.ts:36-45 | narrowing twice is narrowing by the joined list exactly when neither list is empty |
| ScopedStore.SiblingsAreApart | packages/happy-agent-base/sources/AgentKV.ts:157-169 | scopes that do not extend one another share no key, and clearing one leaves the other as it was |
| ScopedStore.ScopesCoincideIff | packages/happy-agent-base/sources/AgentKV.ts:30-45 | segment lists name the same scope exactly when they are equal or are the empty list and the list of one empty segment |
| ChildIndex.BuildIndex | packages/happy-agent-base/sources/AgentSystemLocal.ts:720-728 | the built index lists exactly the children of every parent in key order |
| ChildIndex.ChildrenInTransaction | packages/happy-agent-base/sources/AgentSystemLocal.ts:713-718 | a transaction's own reading gives the same children |
| ChildIndex.IndexCache.Install | packages/happy-agent-base/sources/AgentSystemLocal.ts:719-732 | a build answers from what it read, and takes the cache through the step that keeps it only in an unchanged generation |
| ChildIndex.IndexCache.Invalidate | packages/happy-agent-base/sources/AgentSystemLocal.ts:737-742 | takes the cache through an invalidation |
| ChildIndex.InstalledIndexIsCurrent | packages/happy-agent-base/sources/AgentSystemLocal.ts:710-744 | in every interleaving, unless a commit still awaits its callback, the installed index and every index a build in progress would install were built from the committed links |
| ChildIndex.CallbackClears | packages/happy-agent-base/sources/AgentSystemLocal.ts:736-743 | a transaction that changes links, and the callback after its commit, remove the index and whatever builds in progress have read |
| ChildIndex.UndisturbedBuildIsInstalled | packages/happy-agent-base/sources/AgentSystemLocal.ts:719-732 | a build that nothing disturbs installs the links as they are |
| ChildIndex.StaleUntilCallback | packages/happy-agent-base/sources/AgentSystemLocal.ts:736-743 | a run in which the index is stale until the callback runs |

## Left out

- TerminalSystem: one attachment is followed at a time; other attachments matter only through the pause set, which TerminalServer covers for any number of them.
- TerminalServer.ServerConnection.Initialize: the lease was claimed (InputLeases says when that is refused) and its acknowledged offsets are inputs, so byte and resize interleaving is stated within one connection and not across reconnections.
- TerminalServer.ServerConnection.Receive: inputs are the matter of InputLease, InputHandover and InputLeases, a resize request of a client is the same as one of the host, and scrollback requests are not modelled.
- TerminalClient.ProtocolClient.Receive: input acknowledgements are the matter of InputLease, and scrollback is not modelled.
- TerminalServer.ProtocolServer.EndResize: the failure state that `fail` puts the protocol in, in which held output is dropped, is not modelled; a resize whose callback fails is one that did not succeed.
- TerminalServer.ProtocolServer.PublishExit: an exit asked for during a resize is refused here; the source repeats the call once the resize is over, which is a later action, and that it happens is not stated.
- TerminalCreditRuns.ExitIsSentIff: for attachments that accept no grid; TerminalExit.CoveredExitIsSentIff is the one for grid mode. Handing a packet to a blocked stream still loses it.
- InputLease.DeliveredOnceInOrder: a hand-over to the process is one step with advancing the lease; InputHandover takes them apart.
- InputLease.Hello: leases are numbered where the server draws random tokens, a hello turned away because every lease is held is a close of its attachment, and a client that was replaced sends nothing more.
- InputLease.Receive: inputs that come after the terminal exited or failed are refused by the source; here such an attachment is closed.
- InputLeases.LeasesCountInputsIff: a token drawn at random is never drawn again; a hand-over that fails is one that is never recorded.
- Grid styles, scrollback paging, metrics, client identifiers and parser fingerprints beyond equality.
- zlib is a pair of functions assumed to undo each other and to respect the size limit.
- ResizeDriver: grid snapshots and the terminal's own responses are not modelled.
- TerminalPublishing.LastGridIsShown: for a host that brings its grids in one way; when a host mixes both during a resize, the grids of its updates are committed first, which StepKeepsBooks says.
- TerminalAnyClient.AnyClientIsHeldToCredit: packets the decoder or the schema refuses end the attachment before they reach it and are not modelled.
- AgentConsumption.ConsumesOldest: how many messages one inference takes (by mode, profile and requested tool calls) is an input, and the notices that hooks add between the messages are not modelled.
- AgentSettlement.AlwaysOwedIff: the heap is put back before the next transaction starts, and lifecycle identities are a single number.
- AgentSettlement.QueuedMessageIsOwed: entries are numbered in order of acceptance; QueueKeys says how long the stored keys follow that order.
- ToolBatch.CommitAll: completions follow one another and claims are there from the start; WholeBatchIff lets both arrive at any moment.
- ToolBatch.StepSound: hooks, argument validation and the text of failures are not modelled, and a call is dispatched only if it was never dispatched before.
- ProviderPairing.SuitableContextIsAccepted: gives a sufficient condition; ProviderRefusals.RefusedIff gives the exact one for new generated IDs and DuplicateMappingIff for any. Running out of generated IDs stands for a generator that never returns an unused one.
- ProviderContext.ProviderRoundTrip: message fields other than identities and contents are not modelled.
- Migrations.EffectsOccurOnce: the SQL of a migration is one atomic effect together with its ledger row.
- OrderedStore.RangeIsPrefix: a prefix that holds a lone surrogate matches no stored key; for those only the inclusion is stated.
- Provider sessions, instruction and tool assembly, permission modes, tracing and the SQL layer.
