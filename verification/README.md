# A model of the CometBFT archive peer

The archive peer collects blocks from other peers, keeps recent ones in a hot block
store, moves older ones into immutable segments in an object store, and serves both.
This project models its hard parts and proves what they promise, over every run and
every interleaving.

| file | what it models |
|---|---|
| `common.dfy` | options, results and facts about finite sets of heights |
| `chain.dfy` | blocks, header hashes, hash-linked chains, the local block store |
| `planner.dfy` | the request planner: peers, inflight requests, NoBlock and timeout markers |
| `ingest.dfy` | the hot ingestor with its one-block lookahead and startup recovery |
| `checkpoints.dfy`, `validators.dfy` | what checkpoint mode and validator-set mode authenticate, over whole runs and restarts |
| `reactor.dfy`, `drain.dfy`, `progress.dfy` | the message handlers, each run as one step; what draining the buffer comes to; what every handler gets done |
| `wakeup.dfy` | the same handlers split where they give up the lock around `Submit` |
| `budget.dfy` | the token bucket in front of cold reads |
| `manifest.dfy`, `keys.dfy` | the manifest, its validation and lookup; object names |
| `segment.dfy` | the segment format: framing, offset index, fast and slow decoders |
| `objects.dfy` | the object store with create-only writes and compare-and-swap |
| `publication.dfy` | the publication protocol of concurrent archivers and migrators |
| `archiver.dfy`, `migration.dfy` | the programs that take the steps of that protocol |
| `verify.dfy` | full and incremental verification |
| `pools.dfy`, `hydrate.dfy` | the worker pools under every schedule |
| `prune.dfy`, `node.dfy` | pruning, and the whole node: ingest, archive, verify, prune, restart |
| `loss.dfy`, `ahead.dfy` | what a node can lose and what it cannot; a concrete run that loses a block |
| `anchor.dfy` | what checkpoints say about the blocks a node archives |
| `coldcache.dfy` | the cold read cache: LRU, shared fetches, fetch slots |

Each component that the program updates in place is a class whose methods are proved
equal to a function on values; what the component promises is proved of that function.
Interleavings are step relations over the same functions. The archiver and the migration
also record, in ghost state, the protocol steps they take, and let other writers act
between any two of them, so the theorems about the protocol hold of the programs.

Foreign code enters as function values: SHA-256, gzip (RFC 1952), protobuf, JSON, header
and commit hashes, commit verification. A lemma that needs a property of them names it:
that an encoding reads back, or that a hash does not collide on the finitely many values
that occur in the run at hand.

## Results worth reading first

- `Losses.NoBlockLost`, `Losses.CheckedOnceSafeForever`: from any sound hot store and any
  linked archive, over every run, nothing persisted is lost if and only if one hash agrees.
  `Losses.AdvertisedStaysAvailable`: nothing advertised ever becomes unservable.
- `Publication.PublishedReadsBack`, `Publication.RangesOnlyExtend`: everything under every
  manifest ever published reads back, with any number of writers, crashes and corrupted
  uploads. `ColdCaches.ColdReadIsSupplied` carries this through the read cache.
- `Migrations.MigrationsAgree`, `Migrations.MigrateCallsAgree`: interruptions do not change
  what a migration publishes, said of the protocol and of the program.
- `Checkpoints.RunsAgree`, `Checkpoints.RestartIsExact`, `Anchors.PublishedIsAnchored`,
  `Anchors.NodesPublishAlike`: what checkpoints authenticate, online and after a restart,
  that only that is archived, and that two nodes archive the same headers.
- `Wakeup.NoLostWakeup`, `Wakeup.RunAgreesIff`, `Wakeup.ResponseAlone`: no ready block is
  stranded in the buffer, exactly when planner and buffer agree, and that the split handlers
  refine the whole ones. `Draining.DrainIsExact`, `Progress.HandleLeavesBusy`: what those do.
- `ValidatorMode.SavedIsVouchedFor`: in validator-set mode, everything saved had been signed
  for by trusted validators.
- `Segments.SegmentRoundTrip`, `Segments.AcceptedPayloadIsExact`, `Segments.DecodersAgree`:
  the segment codec.
- `Verification.IncrementalIsFull`: verification passes if and only if every height reads as
  the block its index names. `Pools.NoErrorMeansAllPassed`, `Hydration.WaitEnds`.
- `Budget.GrantedIffAffordable`: the token bucket grants exactly what its rate allows.

## Where a promise fails, and when it holds

- A store the ingestor did not build may carry an unlinked tail above the recovered
  checkpoint. Startup accepts it (`Checkpoints.ForeignTailCanDiffer`); what is later
  verified is really anchored if and only if that tail was linked
  (`Checkpoints.ForeignStoreIsAuthenticIff`).
- The received set and the buffer always agree with handlers run whole
  (`Reactor.RunKeepsWindow`). Split where they give up the lock, they agree in every state of
  a run if and only if no send fails after its answer has been buffered
  (`Wakeup.RunAgreesIff`). Such a failure can come about from rest
  (`Wakeup.LateFailureDisagrees`).
- A node whose archive is ahead of its hot store can lose a block: the archiver never
  compares a new segment with the archived tail, and a prune compares one hash only
  (`ArchiveAhead.AheadLosesABlock`, from an archive published through the protocol). Every
  persisted block stays available if and only if the one persisted at the height where the
  archive ended has the archived hash, or is still hot (`Losses.NoBlockLost`). Comparing
  these two hashes once is enough for good (`Losses.CheckedOnceSafeForever`), and a node that
  starts with its archive not ahead needs no comparison (`Losses.BehindLosesNothing`).
- Tokens never go negative in time order; out of order, exactly while the clock has not
  run back further than the tokens reach (`Budget.OutOfOrderRequests`). The rate bound does
  not depend on the order (`Budget.RateIsBoundedInAnyOrder`).
- `AppendSegmentInPlace` compares the new key with the last one only: the grown manifest is
  valid if and only if no earlier segment has the key (`Manifests.AppendIsValidIff`; one that
  is not: `Manifests.AppendCanRepeatAKey`).

Where code and documentation differ the model follows the code: a segment's key carries
16 hex digits of its digest, where `docs/architecture.md` shows the whole digest, and
archiving reads the hot store block by block, where the same document has it run under
the ingestor's store lock.

## Model

| member | source | states |
|---|---|---|
| Planner.RunKeepsInv | internal/blocksyncarchive/planner.go:62-142 | over every sequence of operations, inflight and received are disjoint, every request is with a current peer that advertises the height and has not answered NoBlock for it, and every marker belongs to a current peer and lies in its range |
| Planner.PlanAtIsExact | internal/blocksyncarchive/planner.go:170-212 | nothing is asked for on an error; otherwise the requests are exactly the newly inflight heights in ascending order, and every window height below the first unservable one is inflight or received |
| Planner.PlanFailsIff | internal/blocksyncarchive/planner.go:170-212 | each error has its exact cause; in particular a height is reported as unservable if and only if it is the first still to be asked for and every peer that has it answered NoBlock |
| Planner.RequestEndsIff | internal/blocksyncarchive/planner.go:62-142 | a request stays, with its peer and time, until its peer leaves, withdraws the height or answers, it is done or failed, or it is overdue; only planning makes new ones |
| Planner.ReceivedIff | internal/blocksyncarchive/planner.go:93-109 | a height counts as received from its marking until it is forgotten or passed |
| Planner.MarksIff | internal/blocksyncarchive/planner.go:62-142 | exactly when NoBlock and timeout markers are made, and exactly how long they last |
| Planner.PeerForHeightRight | internal/blocksyncarchive/planner.go:242-261 | a timed-out peer is chosen only when all eligible peers timed out, and nobody is chosen only when every advertising peer answered NoBlock |
| Planner.NoBlockIsRemembered | internal/blocksyncarchive/planner.go:110-123 | a peer that answered NoBlock is not asked for that height again until it leaves, changes its range, or the height is passed |
| Planner.ExpiryMarksTheLatePeer | internal/blocksyncarchive/planner.go:125-142 | an expired request leaves inflight, and exactly the peer that was late gets the new timeout marker |
| Planner.TimeoutIsRetriedElsewhere | internal/blocksyncarchive/planner.go:125-261 | after an expiry the height, anywhere in the window, goes to another peer whenever a prompt one has it and planning comes to it |
| Planner.OverflowIsHarmless | internal/blocksyncarchive/planner.go:189-193 | on 64-bit heights an overflowing end of the window is recognised, and replacing it by the best height leaves the window as it would be without overflow |
| Planner.RequestPlanner.Upsert | internal/blocksyncarchive/planner.go:62-80 | the five maps end up as the value operation says, with a changed range dropping the peer's markers and its requests outside the range |
| Planner.RequestPlanner.Remove | internal/blocksyncarchive/planner.go:82-91 | the peer, its markers and its requests are gone, nothing else changes |
| Planner.RequestPlanner.NoBlock | internal/blocksyncarchive/planner.go:110-123 | only an answer from the peer that was asked counts |
| Planner.RequestPlanner.Expire | internal/blocksyncarchive/planner.go:125-142 | the loop over the inflight map marks and drops exactly the expired requests and counts them |
| Planner.RequestPlanner.Best | internal/blocksyncarchive/planner.go:156-164 | the highest advertised height, or zero without peers |
| Planner.RequestPlanner.ChoosePeer | internal/blocksyncarchive/planner.go:242-261 | the two scans over the sorted identifiers find the least prompt peer, else the least eligible one |
| Planner.RequestPlanner.PruneMarkersBelow | internal/blocksyncarchive/planner.go:214-240 | the nested loops drop exactly the markers below the height, and peers left without any |
| Planner.RequestPlanner.Plan | internal/blocksyncarchive/planner.go:170-212 | the planning loop changes the maps and answers as the value operation that `PlanAtIsExact` is about |
| Planner.SortIDs | internal/blocksyncarchive/planner.go:243-247 | every peer once, in strictly ascending order |
| Ingest.SubmitAcceptsIff | internal/blocksyncarchive/ingest.go:215-358 | a block is accepted if and only if it is well formed for its mode, has the next height, and its last commit is for exactly the pending block and signed by trusted validators where the mode asks for that |
| Ingest.SubmitAppends | internal/blocksyncarchive/ingest.go:215-243 | an accepted block has the expected height, passes the checkpoint, links to the block before it, and is appended to what is held |
| Ingest.ReadyIff | internal/blocksyncarchive/ingest.go:415-425 | a height is ready to archive exactly when it is the safety window behind the head and, in checkpoint mode, verified |
| Ingest.SubmitKeepsSound | internal/blocksyncarchive/ingest.go:215-251 | the held blocks stay one hash-linked chain on the right chain that passes every checkpoint, with the verified height at its highest checkpoint |
| Ingest.Recover | internal/blocksyncarchive/ingest.go:112-137 | the backward loop recovers the highest retained checkpoint exactly when the blocks down to the base are linked and on the chain, and refuses the store otherwise |
| Ingest.HotIngestor.Start | internal/blocksyncarchive/ingest.go:69-138 | starts exactly when chain, start height, window, checkpoints and validator sets pass their checks and the store recovers, with nothing pending and the recovered verified height; each error tells which of the two failed |
| Ingest.HotIngestor.LookUpSet | internal/blocksyncarchive/ingest.go:360-391 | a bounded cache in front of the source never changes the answer |
| Ingest.HotIngestor.ValidateBlock | internal/blocksyncarchive/ingest.go:262-305 | the first failing check decides the rejection |
| Ingest.HotIngestor.PersistPending | internal/blocksyncarchive/ingest.go:325-358 | the pending block is saved exactly when its successor commits to its height, hash and parts, and the store is untouched otherwise |
| Ingest.HotIngestor.SubmitBlock | internal/blocksyncarchive/ingest.go:215-251 | a rejected block changes nothing; an accepted one persists its predecessor and becomes the pending one |
| Checkpoints.RunKeepsSound | internal/blocksyncarchive/ingest.go:215-251 | soundness of the held chain over every run of arrivals, prunes and restarts |
| Checkpoints.RestartIsExact | internal/blocksyncarchive/ingest.go:112-154 | a restart never fails, resumes at the lost pending height, never trusts more than before, and trusts as much if and only if that checkpoint is retained |
| Checkpoints.HeldIsAnchored | internal/blocksyncarchive/ingest.go:245-288 | every held block at or below a verified checkpoint is hash-linked to it |
| Checkpoints.CheckpointsFixHeaders | internal/blocksyncarchive/ingest.go:262-288 | two nodes with the same checkpoints hold the same header wherever both have verified |
| Checkpoints.RunsAgree | internal/blocksyncarchive/ingest.go:215-288 | the same for any two whole runs, whatever their start heights and safety windows |
| Checkpoints.AnchoredAgree | internal/blocksyncarchive/ingest.go:245-288 | two blocks of one height that are each hash-linked up to some checkpoint of the same set lead to a common one, and have the same header unless the header hash collides on the way |
| Checkpoints.ForeignStoreIsAuthenticIff | internal/blocksyncarchive/ingest.go:112-137 | after a restart on a foreign store, everything verified later is anchored if and only if the tail above the recovered checkpoint was linked |
| Checkpoints.ForeignTailCanDiffer | internal/blocksyncarchive/ingest.go:112-137 | under options that startup accepts, two stores that differ at height 2 both recover and end up with height 5 verified |
| ValidatorMode.SavedIsVouchedFor | internal/blocksyncarchive/ingest.go:262-358 | over every run of arrivals, prunes and restarts, every block saved names validators trusted at its height and was saved on a commit that such validators had signed for exactly that block |
| Chain.ChainsAgreeDownward | internal/blocksyncarchive/ingest.go:112-137 | linked chains that end in the same hash have the same header at every position |
| Reactor.RunKeepsWindow | internal/blocksyncarchive/reactor.go:458-546 | with handlers run whole, received heights are the buffered ones, each from a live peer that advertises it, all work lies in the window, there is at most `RequestLimit` of it, and the block at the next height is never left lying in the buffer |
| Reactor.WindowBoundsWork | internal/blocksyncarchive/reactor.go:674-702 | inflight and buffered heights together number at most the request limit |
| Reactor.DrainKeepsWindow | internal/blocksyncarchive/reactor.go:497-528 | draining any number of buffered blocks keeps the window |
| Draining.DrainIsExact | internal/blocksyncarchive/reactor.go:497-528 | draining submits the block and then the buffered blocks of the following heights, up to the first gap or the first one refused; exactly those heights are gone, and a refused block takes along all that its sender had part in |
| Draining.NextBlockDrains | internal/blocksyncarchive/reactor.go:458-528 | the block of the next height grows what is held by itself and the longest run of buffered blocks after it that ingestion accepts, and leaves no buffered block that is next |
| Progress.HandleLeavesBusy | internal/blocksyncarchive/reactor.go:458-702 | with all peers within reach, after every event that plans each window height that somebody can serve, up to the first that nobody can, is asked for or buffered |
| Progress.BufferedStaysIff | internal/blocksyncarchive/reactor.go:458-546 | draining apart, a buffered block stays unless its sender leaves, sends an empty block or withdraws the height, and only early blocks that were asked for are added |
| Progress.EventsAreRemembered | internal/blocksyncarchive/reactor.go:178-546 | a range, a refusal, a lateness and a departure are known after the event that told of them, and an answer nobody asked for changes nothing |
| Reactor.ResponseKeepsWindow | internal/blocksyncarchive/reactor.go:458-495 | stale, early, expected and refused responses all keep the window |
| Reactor.PlanKeepsWindow | internal/blocksyncarchive/reactor.go:674-702 | planning and failed sends keep the window |
| Reactor.ArchiveReactor.SubmitAndDrain | internal/blocksyncarchive/reactor.go:497-528 | the loop comes to what `DrainIsExact` says, and ends with no buffered block that is next |
| Reactor.ArchiveReactor.HandleBlockResponse | internal/blocksyncarchive/reactor.go:458-495 | the handler changes planner, buffer, peers and ingestor as the value handler says, and never leaves a buffered block that is next |
| Reactor.ArchiveReactor.HandleStatus | internal/blocksyncarchive/reactor.go:530-546 | a new range drops buffered blocks outside it before planning |
| Reactor.ArchiveReactor.HandleNoBlock | internal/blocksyncarchive/reactor.go:310-318 | a NoBlock answer marks the peer and plans again |
| Reactor.ArchiveReactor.HandleTimer | internal/blocksyncarchive/reactor.go:664-672 | expired requests are planned again |
| Reactor.ArchiveReactor.Plan | internal/blocksyncarchive/reactor.go:674-702 | requests that could not be sent are not left inflight |
| Reactor.ArchiveReactor.DropBuffered | internal/blocksyncarchive/reactor.go:717-733 | exactly the given heights leave the buffer and the received set |
| Wakeup.NoLostWakeup | internal/blocksyncarchive/reactor.go:470-528 | whenever the buffer holds the block at the next height some handler is on its way to it, so none is stranded once all are idle |
| Wakeup.WakerReachesBlock | internal/blocksyncarchive/reactor.go:497-528 | that handler reaches the block in at most two steps of its own |
| Wakeup.AloneIsWhole | internal/blocksyncarchive/reactor.go:497-528 | a drain that nobody interrupts, taken in its split steps, ends in the state of the whole drain |
| Wakeup.ResponseAlone | internal/blocksyncarchive/reactor.go:458-528 | the same for a whole block response |
| Wakeup.LockedIsWhole | internal/blocksyncarchive/reactor.go:178-702 | what the other handlers do under the lock is what the whole handlers do before they plan |
| Wakeup.StepKeepsAgreementIff | internal/blocksyncarchive/reactor.go:458-702 | a split step never leaves a height received that is not buffered, and keeps received and buffered heights equal from the next height on if and only if it is not a send failing for a height already received |
| Wakeup.RunAgreesIff | internal/blocksyncarchive/reactor.go:458-702 | over every interleaving from rest, received and buffered heights agree all the way if and only if no send fails that late |
| Wakeup.LateFailureDisagrees | internal/blocksyncarchive/reactor.go:674-702 | from rest, a status, a plan, the answer and then the failed send leave a buffered block that is no longer marked received |
| Budget.TokensAreConserved | internal/blocksyncarchive/reactor.go:397-407 | tokens left and tokens granted never exceed the burst and what time refilled |
| Budget.TokensStayInRange | internal/blocksyncarchive/reactor.go:397-407 | in time order the tokens stay between 0 and 64 |
| Budget.OutOfOrderRequests | internal/blocksyncarchive/reactor.go:399-407 | tokens stay non-negative exactly while the clock has not run back further than they reach |
| Budget.RateIsBounded | internal/blocksyncarchive/reactor.go:383-417 | at most 64 + 32 T grants in any stretch of T seconds |
| Budget.RateIsBoundedInAnyOrder | internal/blocksyncarchive/reactor.go:383-417 | the same bound whatever the order, counted up to a granted request |
| Budget.GrantedIffAffordable | internal/blocksyncarchive/reactor.go:383-417 | a request is granted if and only if every stretch of requests that ends with it stays within 64 + 32 T grants, whatever the order |
| Budget.ColdBudgets.Take | internal/blocksyncarchive/reactor.go:383-409 | one bucket per peer, at most 1024 of them, a full table refuses newcomers |
| Manifests.Validate | internal/archive/manifest.go:168-209 | the scan with its running height and seen keys accepts exactly the manifests of contiguous valid segments with distinct keys |
| Manifests.ScanSegments | internal/archive/manifest.go:190-204 | the scan succeeds exactly on contiguous valid segments with distinct keys from the first height, and ends after the last one |
| Manifests.FindSegment | internal/blocksyncarchive/cold_source.go:247-261 | every height of the range lies in exactly one segment |
| Manifests.SegmentForHeight | internal/blocksyncarchive/cold_source.go:247-261 | the binary search finds what a plain scan finds |
| Manifests.AppendIsValidIff | internal/archive/manifest.go:79-110 | appending adds one segment at the end, and the result is valid if and only if the key is new |
| Manifests.AppendIsComplete | internal/archive/manifest.go:79-110 | whenever one more segment makes a valid manifest, appending yields that manifest |
| Manifests.AppendCanRepeatAKey | internal/archive/manifest.go:79-110 | a valid manifest and a segment that takes the key of its first one are appended to an invalid manifest |
| Manifests.SortSorts | internal/archive/manifest.go:51-68 | a new manifest has the same segments in ascending order |
| Keys.KeyTellsRange | internal/archive/segment.go:337-343 | segments of different ranges never share a key |
| Keys.KeysAreApart | internal/archive/segment.go:337-357 | with default names, segments, manifests and migration states never share a key |
| Segments.FrameReadsBack | internal/archive/segment.go:262-288 | a framed record reads back and leaves exactly what followed it |
| Segments.ReadIsExactFrame | internal/archive/segment.go:262-288 | whatever is read was that record's exact framing |
| Segments.AcceptedPayloadIsExact | internal/archive/segment.go:514-547 | an accepted payload is the exact framing of its records, at most 1000 of them |
| Segments.DecodePayload | internal/archive/segment.go:514-547 | the consuming loop decodes as the recursive definition |
| Segments.EncodeSegment | internal/archive/segment.go:77-158 | the loop fails exactly on unacceptable lists, and otherwise yields the data and the index with the true offset of every record |
| Segments.AcceptsIff | internal/archive/segment.go:77-158 | acceptable are exactly 1 to 1000 good records of consecutive heights whose framing stays 73 bytes below the payload limit |
| Segments.SegmentDecodesIff | internal/archive/segment.go:290-330 | an object decodes to given records if and only if it has the described size and digest, holds exactly their framing within the size its blocks may take, and they match the index entry by entry |
| Segments.EncodedFitsDecoder | internal/archive/segment.go:487-512 | what the encoder accepts never exceeds what the decoder allows for as many blocks |
| Segments.SegmentRoundTrip | internal/archive/segment.go:77-330 | every accepted list decodes to itself |
| Segments.OffsetFindsRecord | internal/archive/segment.go:199-260 | seeking to the recorded offset and reading one record finds that record |
| Segments.DecodersAgree | internal/archive/segment.go:164-260 | the fast path, the slow path and old descriptors without offsets answer alike at every height |
| Segments.BlockIsIndexed | internal/archive/segment.go:164-260 | whatever the object and the index, a block found at a height, by either path, has that height and the hash the index has there |
| Segments.BlockRoundTrip | internal/archive/segment.go:40-75 | a block becomes a record and comes back |
| ObjectStores.SwapSucceedsIff | internal/archive/local_cas.go:67-75 | a swap goes through exactly when the key still holds what was loaded, so replacing and restoring in between is harmless |
| ObjectStores.LocalObjectStore.GetVersioned | internal/archive/local_cas.go:14-25 | bounded reads, with the content digest as revision |
| ObjectStores.LocalObjectStore.CompareAndSwap | internal/archive/local_cas.go:29-80 | a conflict or an unreadable object changes nothing |
| ObjectStores.LocalObjectStore.PutIfAbsent | internal/archive/objectstore.go:279-322 | an existing object is never touched |
| Publication.StepKeepsInv | internal/archive/live.go:140-310 | every step of every writer keeps published segments stored and built by someone, and the stored manifest the latest published one |
| Publication.RunKeepsInv | internal/archive/live.go:140-310 | the same over every interleaving, with crashes and corrupted uploads |
| Publication.PublishedReadsBack | internal/archive/live.go:183-310 | under every manifest ever published, every height reads back as the block supplied for it, and as what anyone who built that segment was given |
| Publication.PublicationStep | internal/archive/manifest.go:136-166 | a publication goes through if and only if the writer started from the latest manifest; a live one is then the stored list and one more segment, a migration exactly its range, and a stale writer changes nothing |
| Publication.RangesOnlyExtend | internal/archive/migrate.go:83-91 | each published range contains every range published before it |
| Publication.StartsMigrationIff | internal/archive/migrate.go:79-91 | a migration of a proper range and chain starts if and only if there is no manifest, or one of its chain that is empty or of exactly its range |
| Publication.SavedIsResumed | internal/archive/migrate.go:92-126 | a saved state is taken up by a later migrator if and only if it is of the same chain and range; that one goes on from exactly this state, and may save over it |
| Publication.PublishesLiveIff | internal/archive/manifest.go:79-166 | a confirmed segment can be published if and only if some valid manifest of the chain has the listed segments and this one, and can be stored |
| Publication.PublishesMigrationIff | internal/archive/migrate.go:151-166 | a checked migration can be published if and only if some valid manifest of the chain has exactly its segments, and can be stored |
| Publication.SwapSeesLatest | internal/archive/local_cas.go:67-75 | the compare-and-swap of a manifest succeeds exactly against the latest publication |
| Publication.KeptVerifies | internal/archive/verify.go:166-206 | every published segment passes full verification |
| Publication.VerifiesIffReadable | internal/archive/verify.go:166-206 | a segment passes the full check if and only if a cold read of every height of it gives a block of that height with the indexed hash |
| Publication.DescribedDecodes | internal/archive/segment.go:290-335 | a segment decodes to the blocks it was built from |
| Publication.OneByOneIsAtOnce | internal/archive/migrate.go:168-232 | checking segments one by one, each at its own moment while other writers go on, is as good as checking them all at the end |
| Archiver.Collect | internal/archive/live.go:191-208 | the reading loop yields exactly the blocks of the range and their records; otherwise a block is missing, of another chain or not encodable, or the context was done |
| Archiver.Archive.PutImmutableSegment | internal/archive/live.go:218-283 | success means the stored object has the described size and digest, uploaded or already there, whatever other writers did meanwhile; failure means the upload failed or the object did not |
| Archiver.Archive.ReadBack | internal/archive/live.go:300-310 | passes exactly when size and digest match |
| Archiver.Archive.BuildAndUpload | internal/archive/live.go:183-216 | success leaves a confirmed segment over exactly the range, built from the source's blocks; failure has its cause in the source, the context or the store |
| Archiver.Archive.ReadManifest | internal/archive/live.go:175-181 | succeeds exactly when a live archiver may start, with the stored manifest and its revision, or an empty one only when none is stored |
| Archiver.Archive.OpenLive | internal/archive/live.go:175-181 | joins as one step of the protocol, from the manifest stored at that moment |
| Archiver.Archive.SaveManifest | internal/archive/manifest.go:136-166 | success means the loaded manifest with one more segment was published, as a publication step of the protocol; failure that it may not be, or that the step found another manifest |
| Archiver.Archive.ArchiveOne | internal/archive/live.go:140-169 | one round publishes one more segment of the source's blocks |
| Archiver.Archive.ArchiveRange | internal/archive/live.go:140-172 | the loop publishes the loaded segments and then the source's blocks up to the end, in segments of exactly the given size but the last, unless the source, the context or the store gives cause to stop |
| Archiver.Archive.ArchiveReadyFromHead | internal/archive/live.go:36-78 | from a manifest this very call loaded, exactly the heights after it, or from the start or the source's base where it is empty, up to the head less the safety window and the source's limit are added; an error has a cause in the options, the source, the context or the store |
| Archiver.Archive.ArchiveReady | internal/archive/live.go:80-173 | from a manifest this call loaded, exactly the heights after it, or from the start or the source's base where it is empty, up to the ready height, the source's height and its limit are added, with the source's blocks; an error has a cause in the options, the source, the context or the store |
| Migrations.BuildsIsUnique | internal/archive/migrate.go:129-150 | source and options leave no choice of segments |
| Migrations.PlanInClosedForm | internal/archive/migrate.go:129-150 | segment i of the plan starts i times the segment size after the start, has that many blocks unless the end comes first, and holds exactly the source's blocks |
| Migrations.RunKeepsPlan | internal/archive/migrate.go:92-150 | over every interleaving and interruption, each saved state is the plan's first segments |
| Migrations.MigrationsAgree | internal/archive/migrate.go:92-166 | any two runs of a migration publish the same segments, however interrupted |
| Migrations.SaveIsNeverRefused | internal/archive/migrate.go:296-366 | the check before a save never refuses a valid segment that is next on plan |
| Migrations.ValidateState | internal/archive/migrate.go:296-334 | accepts exactly contiguous progress from the start with distinct keys |
| Migrations.ReadState | internal/archive/migrate.go:274-294 | a state that does not validate is never resumed from |
| Migrations.ResumeState | internal/archive/migrate.go:92-126 | resumes from the state that is stored, current or legacy, if it is valid and of the same chain and range, and otherwise from scratch |
| Migrations.SaveNext | internal/archive/migrate.go:336-366 | a saved state is the next one and validates; otherwise it may not be saved, or the step found another state |
| Migrations.MigrateRange | internal/archive/migrate.go:129-150 | from the state it resumed, the loop builds exactly what the plan has next, to the end |
| Migrations.CheckCompleted | internal/archive/migrate.go:168-232 | publication is reached if and only if every height of every completed segment reads as the indexed block |
| Migrations.PublishMigration | internal/archive/migrate.go:154-165 | publishes exactly the completed segments, over exactly the range of the state |
| Migrations.Migrate | internal/archive/migrate.go:49-166 | every step of the call carries out the migration; the published manifest covers exactly the heights asked for, with the segments opened in this call and then the plan; an error has a cause in the options, the range, the stored manifest or state, the source, the context or the store |
| Migrations.MigrateCallsAgree | internal/archive/migrate.go:49-166 | two calls of the program on the same source and options publish the same segments, however often interrupted, beside live archivers and other migrators of the same job |
| Migrations.NamesAreGood | internal/archive/segment.go:337-357 | a site that uses the program's own key functions meets what the protocol asks of keys |
| Verification.AttemptIsFull | internal/archive/verify.go:50-108 | an attempt from a sound cache succeeds if and only if every height of the manifest reads as the block its index names, and then remembers exactly the manifest's keys |
| Verification.VerifiedIffReadable | internal/archive/verify.go:110-206 | every segment of a valid manifest passes if and only if every height of it reads as the block its index names |
| Verification.IncrementalIsFull | internal/archive/verify.go:33-108 | the same across any manifest changes and failed or interrupted attempts |
| Verification.IncrementalVerifier.PendingSegments | internal/archive/verify.go:93-108 | pending are exactly the segments whose fingerprint is not remembered |
| Verification.IncrementalVerifier.CheckPending | internal/archive/verify.go:166-206 | no error only if every height of every pending segment reads as indexed, an error about a segment only if one does not |
| Verification.IncrementalVerifier.Verify | internal/archive/verify.go:46-91 | success means that every height of the stored manifest reads as indexed, a segment error that one does not; a failed attempt leaves the cache alone, a successful one replaces it, and it stays sound |
| Pools.FirstSegmentError | internal/archive/migrate.go:238-253 | nothing to report exactly without any error, and the first real error wins over cancellations |
| Pools.NoErrorMeansAllPassed | internal/archive/verify.go:110-164 | under every schedule and cancellation, no error means every job was checked and passed |
| Pools.TroubleIsReported | internal/archive/migrate.go:168-210 | an unchecked or failing job is always reported |
| Pools.QuietPoolReportsNothing | internal/archive/verify.go:110-164 | where no check fails and nobody cancels there is nothing to report |
| Hydration.NeverStranded | internal/archive/hydrate.go:133-229 | the slot the consumer waits for is with a worker or still to be handed out, unless the caller gave up |
| Hydration.WaitEnds | internal/archive/hydrate.go:133-229 | while the consumer waits some worker or the submitter can move, and such moves run out |
| Hydration.SmoothRunTakesAll | internal/archive/hydrate.go:133-229 | where nothing fails and nobody cancels, the consumer stops only after it has taken every segment |
| Pruning.PruneIsCovered | internal/archive/prune.go:80-107 | a prune drops only archived heights, keeps the rest in place, and leaves the blocks to retain |
| Pruning.PruneIsExact | internal/archive/prune.go:80-136 | exactly the blocks to retain and those above the archive are left, so no larger base would do; refused is exactly a bad `retain`, or something to drop while the archive starts above the base or does not have the block just below the new base |
| Pruning.BoundaryIff | internal/archive/prune.go:110-136 | the boundary check passes if and only if the manifest is of the store's chain and one of its segments has the stored block under its hash |
| Pruning.ValidatePruneBoundary | internal/archive/prune.go:110-136 | passes exactly when chain, range and indexed hash match at the boundary |
| Pruning.PruneHotStore | internal/archive/prune.go:59-108 | a refused prune changes nothing, a successful one leaves exactly the blocks to retain and those above the archive |
| Nodes.StepKeepsNode | internal/cli/root.go:916-985 | every arrival, archiver step, snapshot, prune and restart keeps each persisted height hot or archived, what was archived readable as before, what is added equal to what was persisted, and the record of that one linked chain |
| Nodes.PruneRetains | internal/archive/prune.go:80-88 | every prune in a run leaves exactly the blocks to retain and those above the archive |
| Nodes.RestartKeepsInv | internal/cli/root.go:849-854 | a restart, whose start height depends on the archive, keeps all of that |
| Losses.DroppedAgrees | internal/archive/prune.go:110-136 | what a prune drops has the archived header or block, or the height where the archive had ended is dropped with it |
| Losses.AgreeDownward | internal/archive/prune.go:110-136 | one matching hash fixes everything below it, for the persisted chain and a linked archive |
| Losses.NoBlockLost | internal/cli/root.go:933-985 | from any sound hot store and linked archive, in every state of every run, every persisted block is available if and only if the block persisted where the archive had ended has the archived hash, or is not dropped |
| Losses.CheckedOnceSafeForever | internal/cli/root.go:933-985 | once these hashes have been equal, nothing persisted is ever lost |
| Losses.BehindLosesNothing | internal/cli/root.go:849-985 | from an archive that is not ahead and agrees with the hot store, every persisted block stays available |
| Losses.RestartStaysBehind | internal/cli/root.go:849-854 | a restart does not resume inside an archive that was not ahead |
| Losses.MergedIsUnion | internal/blocksyncarchive/cold_source.go:263-279 | a merged range promises only heights one side has, all of both where they touch, and always all of the one that reaches higher |
| Losses.AdvertisedStaysAvailable | internal/blocksyncarchive/reactor.go:277-287 | a height advertised from the hot range and no manifest or any manifest published by then, however stale, is servable then and ever after |
| ArchiveAhead.AheadLosesABlock | internal/archive/live.go:109-133 | a whole run, from an archive published through the protocol and an ingested hot store that it is one height ahead of, after which a persisted block is neither hot nor archived |
| Anchors.PublishedIsAnchored | internal/archive/live.go:130-133 | in checkpoint mode every height the node adds to the archive reads back as a block hash-linked to a trusted checkpoint |
| Anchors.NodesPublishAlike | internal/archive/live.go:130-133 | two nodes with the same checkpoints, on sites of their own, published the same header at every height both added, unless the header hash collides below a common checkpoint |
| ColdCaches.EvictionIsExact | internal/blocksyncarchive/cold_source.go:194-204 | eviction keeps the longest run of most recently used entries that leaves room |
| ColdCaches.TouchKeepsCache | internal/blocksyncarchive/cold_source.go:147-156 | a hit moves its entry to the front and changes nothing else |
| ColdCaches.FetchKeepsCache | internal/blocksyncarchive/cold_source.go:193-211 | landing a fetch, good or bad, keeps list, map, byte count and flights consistent |
| ColdCaches.FetchedIsHit | internal/blocksyncarchive/cold_source.go:144-211 | a fetched segment that fits is a hit from then on, in front, and pushes out no more of the oldest entries than it takes; any other fetch changes nothing but its flight |
| ColdCaches.LooksIff | internal/blocksyncarchive/cold_source.go:144-183 | what is cached is a hit, what is in flight is shared, and only four fetches under way hold a call up |
| ColdCaches.ArchiveBlockSource.Look | internal/blocksyncarchive/cold_source.go:144-183 | under the lock a call hits, joins a flight, leads one, or finds all slots taken |
| ColdCaches.ArchiveBlockSource.Land | internal/blocksyncarchive/cold_source.go:193-211 | the eviction loop ends without ever meeting an empty list |
| ColdCaches.CacheStaysSound | internal/blocksyncarchive/cold_source.go:136-214 | under every interleaving the byte count is exact and within the limit, list and map are in bijection, no key is cached and in flight, and at most four fetches run |
| ColdCaches.LoadEqualsUncached | internal/blocksyncarchive/cold_source.go:136-214 | every successful load, cached, shared or fetched, equals an uncached fetch and decode, while manifests and states are rewritten |
| ColdCaches.OneFetchPerSegment | internal/blocksyncarchive/cold_source.go:157-187 | no two calls fetch the same segment at the same time |
| ColdCaches.SomeoneMoves | internal/blocksyncarchive/cold_source.go:143-214 | no deadlock: while any call is not done, some call can take a step of its own |
| ColdCaches.HealthyLoadsSucceed | internal/blocksyncarchive/cold_source.go:136-214 | where the object is in order, nobody gives up and no request to the store fails, every load that ends has the records |
| ColdCaches.ColdReadIsSupplied | internal/blocksyncarchive/cold_source.go:90-214 | beside any publishers, a successful load of the segment that any published manifest has for a height holds there the block its writer was given |

## Left out

- Planner.PlanAtIsExact: heights are unbounded. `OverflowIsHarmless` covers the end of the window; that the loop's own height would wrap around behind height 2^63 - 1 is not modelled.
- Migrations.CheckCompleted: reads all segments in one step of the protocol; `Publication.OneByOneIsAtOnce` shows that reads spread over a run decide alike.
- Verification.IncrementalVerifier.CheckPending: checks one segment after the other; `Pools` models the workers that share this.
- Archiver.Archive.ArchiveReady: the block source does not change during one call; `Nodes` lets ingestion go on between the archiver's steps.
- Archiver.Archive.PutImmutableSegment: the shortcut on an ETag equal to the MD5 of the data is taken to mean that the stored object is the data, a case of reading it back.
- Stores with neither create-only writes nor conditional updates, and manifest keys chosen to equal a segment's key.
- Sampled verification (`SampleEvery`): only full verification decides about pruning.
- The hydrated files on disk and their size limit: only the pipeline is modelled.
- The cached manifest of the cold reader and its time to live: availability is stated for any published manifest, however stale.
- Timestamps in manifests and states, counters, metrics and log output: nothing modelled depends on them.
- Hexadecimal and whitespace normalisation of checkpoints: checkpoints are taken in normal form.
- Evidence retention inside `PruneBlocks`, commit verification, part sets, gzip, protobuf and JSON: foreign code, present as function values.
- The S3 client, file locking, temporary files and directory syncing: a write is one atomic step.
- The peer-to-peer switch, command line, configuration, metrics server, and loading of validator sets: wiring and input checks.
