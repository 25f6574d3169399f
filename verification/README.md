# connetto, modelled and proved in Dafny

connetto is an offline-first sync client. This project models the parts of it that must keep
promises across restarts, reconnects and retries, and proves those promises for every input,
every run or every reachable state.

`dafny verify dfyconfig.toml` checks the whole project.

## Components

- **Durable writer queues** (`Writer*.dfy`). Every local write is an entry of one writer, with a
  sequence, a chain hash, a replica-wide position and, once moved, its first origin.
  `WriterQueues` and `WriterDisk` are the in-memory queues and the SQLite tables, `WriterState` the
  operations with the invariant they keep, `WriterRuns` the protocol as a state machine.
  `WriterTheorems`, `WriterConservation` and `WriterOrder` hold the claims over runs, `WriterFatal` and
  `WriterReload` the two runs that lose something, `WriterBound` what a connection is bound to.
  `WriterPlacement` and `WriterConnection` are the code as it runs: a class updated in place, whose
  methods are proved to take the protocol's steps. The entry hash is an arbitrary function.
- **Share-key coverage** (`Coverage*.dfy`). When the client may durably claim that its cursor covers
  a set of subjects.
- **Row retention and resync** (`Retention.dfy`, `Resync.dfy`). What an eviction, a departure and a
  resync do to rows, filters being three-valued.
- **Hotspot and Bluetooth tables** (`Hotspot*.dfy`, `Bluetooth*.dfy`). Callers are tokens, the
  platform and the clock are inputs.
- **Gate, backoff, resting aggregates, base32, dates** (`Gate.dfy`, `Backoff.dfy`, `Resting.dfy`,
  `Base32.dfy`, `Civil.dfy`).

## Where the code does not give what one would expect

- `carry_writers` with its target among the dead deletes what it has just written. An exclusion can
  leave the connection bound to the unissued writer (lib.rs:4604-4609), and a fatal writer error the
  code accepts there carries that writer to itself (lib.rs:6768-6782). In a release build the
  transaction commits and the move in memory then panics (lib.rs:4447-4458); the model goes on from
  what the next open loads. A debug build stops at the assertion on lib.rs:4382. `WriterFatal` has the
  run, `WriterConservation` the exact condition.
- A restore that retires the replica's own device leaves the connection bound to it
  (lib.rs:5661-5676). Nothing is sent meanwhile. `WriterBound` has the run and the exact condition.
- The reload sets a queue's head to its last pending entry (lib.rs:2819-2820), so it is exact only
  while the last appended entry is pending. `WriterReload` has the run.
- A computed subscription declared again while a fence lists it is counted by no one
  (lib.rs:5789-5793), so the pong can publish coverage over it. `CoverageTheorems` has the run and
  the exact condition. The comment at lib.rs:5786-5788 says a swap settles a computed declaration;
  the code does not, and the model follows the code.
- With an explicit resume cursor a stored claim is not withdrawn when keys change
  (lib.rs:3555-3568, 4856-4865).
- An attempt cap of the largest 32-bit integer never ends an episode (backoff.rs:186-193).
- The bound of a joiner's exchange is looked at only once its stream runs (bluetooth.rs:1507-1523), so
  an exchange that never connects is not ended by it. `BluetoothRuns` has the run and the exact
  condition.

## Model

| member | source | states |
|---|---|---|
| `WriterNames.RoundTrip` | crates/connetto-client/src/lib.rs:2457-2490 | parsing a writer's storage spelling gives the writer back, for every device key and every number |
| `WriterNames.IdInjective` | crates/connetto-client/src/lib.rs:2457-2472 | no two writers share a spelling |
| `WriterNames.SpellWriter` | crates/connetto-client/src/lib.rs:2457-2472 | the loop over the key's bytes spells exactly the id |
| `WriterDisk.NothingSkipped` | crates/connetto-client/src/lib.rs:2565-2583 | reading the text-keyed tables yields every state and every row under its own writer and nothing else, so no row a writer stored is skipped |
| `WriterDisk.RowRoundTrip` | crates/connetto-client/src/lib.rs:2588-2615 | a stored entry, its provenance spelled as text, reads back as itself |
| `WriterQueues.PlanIsTheTails` | crates/connetto-client/src/lib.rs:4388-4402 | the plan of a carry holds every entry of the dead writers once, in append order |
| `WriterQueues.PlaceShape` | crates/connetto-client/src/lib.rs:4403-4413 | the planned entries land at consecutive fresh sequences, with their changeset, position and first origin, and overwrite nothing of the target |
| `WriterCarry.CarryConserves` | crates/connetto-client/src/lib.rs:4381-4480 | for distinct dead writers without the target, a carry loses and adds no entry, and keeps each position, changeset and first real origin |
| `WriterCarry.CarryShape` | crates/connetto-client/src/lib.rs:4446-4478 | no other writer's queue is touched, the dead ones are gone, the target grew by exactly the plan |
| `WriterCarry.CarryKeepsOneOrder` | crates/connetto-client/src/lib.rs:4402 | positions stay distinct across all writers after a carry |
| `WriterCarry.CarryConservesExactly` | crates/connetto-client/src/lib.rs:4381-4480 | the queues a carry describes hold all there was if and only if the target is not among the dead or there was nothing to carry |
| `WriterConservation.TablesConserveExactly` | crates/connetto-client/src/lib.rs:4414-4445 | what the carry's transaction leaves to load holds all there was if and only if the target is not among the dead or they held nothing |
| `WriterCarry.PlaceSucceeds` | crates/connetto-client/src/lib.rs:4403-4436 | planned entries that can be stored are placed if and only if every changeset parses and the target's sequences do not run out |
| `WriterCarry.CarrySucceeds` | crates/connetto-client/src/lib.rs:4381-4445 | a carry is refused exactly when some entry of the dead does not parse or the target's next sequence plus their entries passes the storage integer |
| `WriterCarry.PlaceLog` | crates/connetto-client/src/lib.rs:4403-4413 | the target's append log stays a valid hash chain from genesis to the new head |
| `WriterCarry.ExtendLog` | crates/connetto-client/src/lib.rs:4509-4544 | an append keeps the writer's log a valid hash chain ending at its head |
| `WriterDisk.MirrorsCarry` | crates/connetto-client/src/lib.rs:4414-4478 | the one transaction makes on disk the change made in memory |
| `WriterDisk.MirrorsRekey` | crates/connetto-client/src/lib.rs:2642-2656 | re-keying the unissued rows and state to the issued number keeps tables and queues in step |
| `WriterDisk.CarryRetires` | crates/connetto-client/src/lib.rs:4437-4443 | the transaction retires exactly the dead device keys |
| `WriterDisk.LoadRebuilds` | crates/connetto-client/src/lib.rs:2788-2833 | reloading the tables rebuilds every queue's next sequence and entries, and the whole queue if and only if its head is the hash of its last pending entry, an emptied queue needing its stored head besides |
| `WriterPlacement.PlaceIsLaid` | crates/connetto-client/src/lib.rs:4403-4436 | hashing first and storing row by row afterwards is the simple placement: it succeeds exactly when every row and the final state can be stored, and leaves the same queue |
| `WriterPlacement.Unreadable` | crates/connetto-client/src/lib.rs:4407-4413 | one changeset that cannot be hashed refuses the whole carry |
| `WriterPlacement.PlaceRowsAreLaid` | crates/connetto-client/src/lib.rs:4416-4436 | the rows written in the transaction are the rows of the placement |
| `WriterState.RaiseMirrorsExactly` | crates/connetto-client/src/lib.rs:3879-3890 | memory and disk agree after a frontier raise if and only if the raised sequence fits the storage integer, memory being assigned first |
| `WriterState.NextPositionAbove` | crates/connetto-client/src/lib.rs:2826-2832 | the reloaded next position exceeds every outstanding one |
| `WriterState.SettledBelow` | crates/connetto-client/src/lib.rs:3977-3989 | the settled prefix is everything below the first pending entry, or the whole queue when nothing is pending |
| `WriterRuns.NumberIdentity` | crates/connetto-client/src/lib.rs:3967-3972 | the number found is an issued one the replica holds, and none is found only when it holds none |
| `WriterRuns.TailTargetOwns` | crates/connetto-client/src/lib.rs:4486-4491 | a real dead writer's tail goes to another writer, one that may own a queue |
| `WriterRuns.HandshakeStrandsNoTail` | crates/connetto-client/src/lib.rs:3926-3963 | a device handshake is presented only when no number queue holds a tail, an unissued tail always asks for its number, and a number is asked for only when none is held |
| `WriterRuns.StepGood` | crates/connetto-client/src/lib.rs:3779-3856 | every event of the protocol keeps the invariant and undoes nothing: pushes, attaches, grants, answers, binds, exclusions, fatal errors of any bound writer, restores and restarts |
| `WriterTheorems.WriterSelection` | crates/connetto-client/src/lib.rs:3926-4112 | in every state of every run there is at most one number queue, the unissued one counted, and a retired key never again owns a queue, takes an entry or becomes the bound writer |
| `WriterTheorems.StepBinds` | crates/connetto-client/src/lib.rs:4283-4330 | no step binds the connection to a retired key |
| `WriterTheorems.ExactlyOnceIdentity` | crates/connetto-client/src/lib.rs:4503-4544 | a (writer, sequence) pair names one changeset for ever; while a queue lives its next sequence exceeds every pending one and never decreases, nor does its settled prefix; a writer whose queue is gone never owns another |
| `WriterTheorems.NeverResent` | crates/connetto-client/src/lib.rs:3900-3920 | no mutation at or below a settled prefix the handshake reported is ever sent again |
| `WriterTheorems.PendingAboveEarlierSettled` | crates/connetto-client/src/lib.rs:3977-3989 | whatever is pending later lies above every earlier settled prefix of its writer |
| `WriterTheorems.RestartRefines` | crates/connetto-client/src/lib.rs:2788-2833 | in every state of every run the reload rebuilds next sequences, entries and retired keys, every queue whose last appended entry is pending, and every emptied queue whose head no earlier restart moved |
| `WriterTheorems.ReloadIsExact` | crates/connetto-client/src/lib.rs:2788-2833 | after any run without a restart the reload is exactly the in-memory queues whenever each non-empty queue's last appended entry is still pending |
| `WriterReload.ReloadForgetsHead` | crates/connetto-client/src/lib.rs:2806-2825 | two writes, a number, the second refused, a restart: the queue comes back with the first entry's hash for its head, for every number and changesets |
| `WriterTheorems.NoTailStranded` | crates/connetto-client/src/lib.rs:4381-4445 | in every state of every run a carry is refused only when the target's sequences run out, every pending changeset having parsed when it was appended |
| `WriterConservation.MovesConserve` | crates/connetto-client/src/lib.rs:3779-3856 | attach, grant, bind, refusal, revocation, fatal error and restart lose no outstanding write and make none up, if and only if the event is not a fatal error for the unissued writer with a tail that has room behind itself |
| `WriterConservation.AnswerRemovesOne` | crates/connetto-client/src/lib.rs:6802-6819 | an answer removes the one entry it names under the bound writer, and no other |
| `WriterConservation.RekeyConserves` | crates/connetto-client/src/lib.rs:4054-4074 | the unissued queue taking its number keeps every entry |
| `WriterConservation.RestartConserves` | crates/connetto-client/src/lib.rs:2788-2825 | a reload keeps every outstanding entry |
| `WriterOrder.ListingIsOne` | crates/connetto-client/src/lib.rs:7271-7278 | there is one listing of the outstanding entries by position, so neither the walk of the maps nor an unstable sort shows in it |
| `WriterOrder.MovesKeepOrder` | crates/connetto-client/src/lib.rs:4381-4480 | carry, re-key, bind, exclusion, fatal error and restart keep the append order entry by entry, but for the one event that loses |
| `WriterOrder.PushEndsOrder` | crates/connetto-client/src/lib.rs:6306-6338 | a pushed write goes behind every outstanding one |
| `WriterOrder.AnswerLeavesOrder` | crates/connetto-client/src/lib.rs:6405-6426 | an answer takes its one entry out of the order and leaves the others in it |
| `WriterOrder.RestoreEndsOrder` | crates/connetto-client/src/lib.rs:5642-5688 | a restore keeps the replica's own writes in order and puts the archive's behind them |
| `WriterOrder.ExportThenRestore` | crates/connetto-client/src/lib.rs:5430-5451 | exporting and restoring re-queues the same changesets in the same order behind the replica's own, each with its first real origin |
| `WriterOrder.StoredAll` | crates/connetto-client/src/lib.rs:5676-5687 | with room in the storage integers a restore stores the whole archive if and only if every changeset parses |
| `WriterConservation.FatalConservesExactly` | crates/connetto-client/src/lib.rs:4486-4500 | a fatal error under a number loses no write if and only if the number was issued, the unissued writer has no tail, some entry of that tail does not parse, or its sequences run out |
| `WriterFatal.RevokeThenFatalLoses` | crates/connetto-client/src/lib.rs:4604-4609 | push as a device, attach, bind, lose the device to a revocation, receive a fatal writer error: on that run the write is in no table, for every key and changeset that parses |
| `WriterBound.BoundRetiredExactly` | crates/connetto-client/src/lib.rs:5661-5676 | on every run the connection is bound to a retired device exactly from a restore of that device's own archive with room for its tail until the first event that takes it off |
| `WriterBound.BoundRetiredStep` | crates/connetto-client/src/lib.rs:5661-5676 | an event leaves the connection bound to a retired device if and only if it is such a restore, or found it so and is no accepted handshake, bind, exclusion with room, disconnect or restart |
| `WriterBound.NothingSentMeanwhile` | crates/connetto-client/src/lib.rs:6334-6335 | while the connection stays bound to a retired device no event sends a mutation |
| `WriterBound.RestoreLeavesBound` | crates/connetto-client/src/lib.rs:5661-5676 | push as a device, attach, bind, restore an archive of that device: the run ends bound to a retired key, for every key and changeset that parses |
| `WriterBound.GrantedExactly` | crates/connetto-client/src/lib.rs:4034-4112 | in every state that keeps the invariant an acknowledgement is folded in if and only if it answers the request: a fresh non-zero number at frontier zero, the same number, or no grant for a device |
| `WriterConnection.LoadWriterQueues` | crates/connetto-client/src/lib.rs:2788-2833 | the loading loops compute the load function and the next position |
| `WriterConnection.LoadOne` | crates/connetto-client/src/lib.rs:2806-2825 | folding one writer's rows in sequence order rebuilds its queue |
| `WriterConnection.GatherPlan` | crates/connetto-client/src/lib.rs:4388-4402 | the collecting loops and the sort compute the plan |
| `WriterConnection.HashPlan` | crates/connetto-client/src/lib.rs:4403-4413 | the hashing loop links every entry to the one before, or the placement fails |
| `WriterConnection.StorePlan` | crates/connetto-client/src/lib.rs:4416-4436 | the row loop and the state write leave the placed tables, or nothing |
| `WriterConnection.MoveEntries` | crates/connetto-client/src/lib.rs:4446-4471 | moving the entries one by one leaves the carried queues, every planned entry being found where the plan says |
| `WriterConnection.CarryAll` | crates/connetto-client/src/lib.rs:4381-4480 | the carry as it runs takes the step of the protocol model, and panics after its transaction exactly when it carries a tail into its own writer |
| `WriterConnection.CarryTakesASet` | crates/connetto-client/src/lib.rs:4577-4592 | the order of the dead writers does not show in the result |
| `WriterConnection.ConnettoConnection.AppendEntry` | crates/connetto-client/src/lib.rs:4503-4544 | an append in place is the model's append, and a refused one changes nothing |
| `WriterConnection.ConnettoConnection.PushWrite` | crates/connetto-client/src/lib.rs:6306-6338 | a push in place is the model's, keeps the invariant, and sends the entry at once exactly when its writer is bound on a live wire |
| `WriterConnection.ConnettoConnection.CarryWriters` | crates/connetto-client/src/lib.rs:4381-4480 | a carry in place is the model's carry, a refused one changes nothing, and a panicked one has committed its tables |
| `WriterConnection.ConnettoConnection.ApplyWriterGrant` | crates/connetto-client/src/lib.rs:4034-4112 | the grant folded in place is the model's, with every protocol error leaving the state alone, and keeps the invariant when it answers the handshake with a fresh number |
| `WriterConnection.ConnettoConnection.RaiseFrontier` | crates/connetto-client/src/lib.rs:3879-3890 | the raise in place is the model's, and keeps the invariant when the frontier can be stored |
| `WriterConnection.ConnettoConnection.ReportSettled` | crates/connetto-client/src/lib.rs:3977-3989 | the reported number is the settled prefix |
| `WriterConnection.ConnettoConnection.ReplayPending` | crates/connetto-client/src/lib.rs:3900-3920 | the replay sends exactly the bound writer's pending entries, in sequence order |
| `WriterConnection.ConnettoConnection.MutationSettled` | crates/connetto-client/src/lib.rs:6802-6819 | settling in place is the model's step, a held bind releasing the number behind it, and keeps the invariant |
| `WriterConnection.ConnettoConnection.ExcludeDeviceWriters` | crates/connetto-client/src/lib.rs:4577-4611 | the exclusion in place is the model's, and keeps the invariant |
| `WriterConnection.ConnettoConnection.AnswerBind` | crates/connetto-client/src/lib.rs:4283-4330 | the answered bind in place is the model's, a frontier the storage integer cannot hold included; one that can be stored keeps the invariant |
| `WriterConnection.ConnettoConnection.CarryToLiveWriter` | crates/connetto-client/src/lib.rs:4495-4500 | any dead writer's tail carried in place is the model's step, which after a panic is the next open of the tables, and keeps the invariant |
| `WriterConnection.ConnettoConnection.RestoreArchivedWrites` | crates/connetto-client/src/lib.rs:5642-5688 | the restore in place is the model's, and keeps the invariant |
| `WriterConnection.ConnettoConnection.Open` | crates/connetto-client/src/lib.rs:3555-3569 | opening a replica is the model's restart, and keeps the invariant |
| `Coverage.StepInv` | crates/connetto-client/src/lib.rs:4856-5141 | every operation keeps the claim sound and the stored pair in step with memory |
| `CoverageTheorems.ClaimsAreSound` | crates/connetto-client/src/lib.rs:4869-4898 | in every state of every run without an explicit resume cursor, a claim means the held key generation is the accepted one, no swap or fence is in flight and nothing is counted or listed unfenced; the stored pair is the pair in memory |
| `CoverageTheorems.ClaimsAreFenced` | crates/connetto-client/src/lib.rs:6678-6697 | until a pong settles a listed subscription that was declared again behind its ping, a claim means the server has processed every computed declaration of the wire |
| `CoverageTheorems.ClaimsAreFencedWithoutRedeclaring` | crates/connetto-client/src/lib.rs:5781-5806 | so does every claim of a run that never declares a computed subscription again while the fence in flight lists it |
| `CoverageTheorems.EscapingExactly` | crates/connetto-client/src/lib.rs:5781-5806 | in every state of every run a declaration escapes the ping in flight if and only if it was declared again under it, is still listed and nothing more is counted |
| `CoverageTheorems.PongExactly` | crates/connetto-client/src/lib.rs:6678-6697 | a pong claims only over processed declarations if and only if a cursor, swap, generation, resync, snapshot, count or listing withholds its claim or no declaration escaped its ping |
| `CoverageTheorems.OverclaimsExactly` | crates/connetto-client/src/lib.rs:6678-6697 | on every run the first pong to miss a declaration claims too much exactly when nothing withholds its claim, and no earlier event does |
| `CoverageTheorems.OnlyRedeclaringEscapes` | crates/connetto-client/src/lib.rs:5781-5806 | only declaring a computed subscription again while a fence lists it lets a declaration escape |
| `CoverageTheorems.RedeclaredUnderItsFence` | crates/connetto-client/src/lib.rs:5789-5793 | declare, fence, declare again, pong: coverage is claimed over a declaration the server has not processed |
| `CoverageTheorems.ClaimsWaitForRows` | crates/connetto-client/src/lib.rs:4869-4883 | a step claims only with a cursor, no snapshot open and no resync waiting, and only on work, a swap's answer, a pong or a snapshot's end |
| `CoverageTheorems.OwedBlocksClaims` | crates/connetto-client/src/lib.rs:5786-5793 | after a refused computed declaration nothing is claimed until another computed declaration, its unsubscribe, a disconnect or a restart |
| `CoverageTheorems.RefusedIsOwed` | crates/connetto-client/src/lib.rs:6546-6550 | a refused declaration outlives the fence that counted it |
| `CoverageTheorems.DurableIsWrites` | crates/connetto-client/src/lib.rs:4856-4898 | the durable effect of every operation is its writes in order |
| `CoverageTheorems.CrashSound` | crates/connetto-client/src/lib.rs:4901-4971 | a process death after any number of an operation's writes reopens to a client whose claim is sound, whatever the next builder holds and whatever has expired |
| `CoverageTheorems.KeyChangeExactly` | crates/connetto-client/src/lib.rs:4901-4971 | a key added, removed or expired leaves the stored claim sound if and only if the claim is withdrawn with it or names only keys still stored |
| `CoverageTheorems.ExplicitResumeLeavesClaim` | crates/connetto-client/src/lib.rs:3555-3568 | an explicit resume cursor opens unclaimed over a row that still claims, so a removed key can be claimed by the next plain open |
| `CoverageClient.ShareKeyState.InvalidateCoverage` | crates/connetto-client/src/lib.rs:4856-4865 | unclaiming in place is the model's, durable first |
| `CoverageClient.ShareKeyState.PublishCoverage` | crates/connetto-client/src/lib.rs:4869-4898 | publishing in place is the model's |
| `CoverageClient.ShareKeyState.StepShareKeys` | crates/connetto-client/src/lib.rs:5097-5122 | one round of work in place is the model's: a swap or a fence, then expiry, then publication, and keeps a sound state sound |
| `CoverageClient.ShareKeyState.SendSubscribe` | crates/connetto-client/src/lib.rs:5781-5806 | a declaration in place is the model's, and keeps a sound state sound |
| `CoverageClient.ShareKeyState.SettleReplacement` | crates/connetto-client/src/lib.rs:5125-5141 | a swap's answer in place is the model's, a foreign one refused, and keeps a sound state sound |
| `CoverageClient.ShareKeyState.HandlePong` | crates/connetto-client/src/lib.rs:6678-6697 | a pong in place is the model's, and keeps a sound state sound |
| `CoverageClient.ShareKeyState.RefuseDeclaration` | crates/connetto-client/src/lib.rs:6546-6550 | a refused declaration in place is the model's, and keeps a sound state sound |
| `CoverageClient.ShareKeyState.Forget` | crates/connetto-client/src/lib.rs:6022-6045 | an unsubscribe in place is the model's, and keeps a sound state sound |
| `CoverageClient.ShareKeyState.HandleSnapshotEnd` | crates/connetto-client/src/lib.rs:6600-6619 | a snapshot's end in place is the model's, and keeps a sound state sound |
| `CoverageClient.ShareKeyState.ExpireShareKeys` | crates/connetto-client/src/lib.rs:4901-4937 | expiry in place is the model's, and keeps a sound state sound |
| `CoverageClient.ShareKeyState.CommitShareKeyChange` | crates/connetto-client/src/lib.rs:4959-4971 | a key change in place is the model's, and keeps a sound state sound |
| `CoverageClient.ShareKeyState.Disconnected` | crates/connetto-client/src/lib.rs:4693-4720 | a lost wire in place is the model's, and keeps a sound state sound |
| `CoverageClient.ShareKeyState.Open` | crates/connetto-client/src/lib.rs:5144-5175 | opening and merging the stored keys is the model's, sound whenever the stored claim names stored keys |
| `Retention.TakenExactly` | crates/connetto-client/src/lib.rs:7026-7046 | the delete takes a row if and only if every kept clause is FALSE of it, so a NULL keeps it |
| `Retention.DeleteUncovered` | crates/connetto-client/src/lib.rs:6977-7050 | exactly the removable rows of the scoped tables go: a stale table's every row, else a row no live subscription claims whole, every filter is FALSE of and no pending write touches |
| `Retention.GatherClaims` | crates/connetto-client/src/lib.rs:6987-7008 | the loop over the declared subscriptions gathers the surviving filters and whether some claim is of the whole table |
| `Retention.PendingSpare` | crates/connetto-client/src/lib.rs:7063-7107 | the spared rows are exactly those some pending operation with a complete key touches |
| `Retention.EvictSubscriptionRows` | crates/connetto-client/src/lib.rs:7160-7181 | an eviction removes exactly the rows removable with the subscription left out, and offline removes nothing |
| `Retention.RepeatedDeleteIsOne` | crates/connetto-client/src/lib.rs:6977-7050 | deleting again deletes nothing more |
| `Retention.StillCovered` | crates/connetto-client/src/lib.rs:7488-7548 | a departure is withheld if and only if another live subscription claims the whole table or its filter is TRUE of the held row |
| `Retention.HonourDepartures` | crates/connetto-client/src/lib.rs:7444-7478 | a patch is applied whole unless it is nothing but departures, and then exactly the departures no one else covers are kept, in order |
| `Retention.HonouredExactly` | crates/connetto-client/src/lib.rs:7466-7478 | a kept departure is one of the patch's that is not withheld, and every such one is kept |
| `Retention.EvictionWithinDeparture` | crates/connetto-client/src/lib.rs:6977-7050 | pending spares aside, a held row is evictable if and only if its departure would be honoured and no filter is NULL of it |
| `Retention.WantedRowsStay` | crates/connetto-client/src/lib.rs:6984-7008 | a row some other live subscription's filter is not FALSE of outlives every eviction |
| `Resync.ReapplyPending` | crates/connetto-client/src/lib.rs:7270-7290 | the loop over the pending changesets performs their operations in append order under the server-wins rule |
| `Resync.ReapplyIsIdempotent` | crates/connetto-client/src/lib.rs:6600-6619 | re-applying again, with no change between, changes nothing |
| `Resync.SnapshotShowsThrough` | crates/connetto-client/src/lib.rs:1414-1419 | a row some pending insert or delete decides ends the same whatever the snapshot delivered; elsewhere the pending updates overlay the snapshot's row |
| `Resync.RollbackUndoes` | crates/connetto-client/src/lib.rs:6405-6426 | rolling a refused write back restores the rows exactly, when nothing landed on it since |
| `Resync.ServerRowStays` | crates/connetto-client/src/lib.rs:1509-1511 | a row the server has changed since stays as the server left it |
| `HotspotRuns.EveryCallerIsOwedOrAnswered` | crates/connetto-client/src/hotspot.rs:492-741 | over every run each caller has been answered exactly as often as it asked but for the asks still pending, and none is dropped before the close |
| `HotspotRuns.NothingOutlivesItsBound` | crates/connetto-client/src/hotspot.rs:613-788 | no host request, landing, join or dial plan survives a tick that read the clock at or past its bound |
| `HotspotRuns.JoinsNeverOverlap` | crates/connetto-client/src/hotspot.rs:545-581 | platform join requests never overlap, and the dials are bound exactly while joined |
| `HotspotRuns.DialsAreBounded` | crates/connetto-client/src/hotspot.rs:743-788 | one join dials at most thirty times, at least two seconds apart and all within sixty seconds of its first dial, gives up at most once, and a standing plan ends that minute and has exactly one of a dial in flight and a redial due |
| `HotspotRuns.AnswersAreTrue` | crates/connetto-client/src/hotspot.rs:613-741 | a caller told it hosts or has joined does, and one refused does not |
| `HotspotRuns.TimedOutIsLate` | crates/connetto-client/src/hotspot.rs:656-735 | a bound's refusal is sent at or past the bound and only while the platform has not answered |
| `HotspotRuns.CloseInv` | crates/connetto-client/src/hotspot.rs:793-813 | the close leaves exactly the pending callers unanswered and no join standing |
| `HotspotMachine.HotspotTables.HostHotspot` | crates/connetto-client/src/hotspot.rs:494-514 | a host command in place is the table's row, and everything done so far still conserves callers, joins and dials |
| `HotspotMachine.HotspotTables.StopHost` | crates/connetto-client/src/hotspot.rs:515-534 | stopping in place is the table's row, every waiting caller answered, and everything done so far still conserves callers, joins and dials |
| `HotspotMachine.HotspotTables.JoinNetwork` | crates/connetto-client/src/hotspot.rs:545-569 | a join command in place is the table's row, and everything done so far still conserves callers, joins and dials |
| `HotspotMachine.HotspotTables.LookAtHost` | crates/connetto-client/src/hotspot.rs:614-675 | the tick's host row in place is the table's |
| `HotspotMachine.HotspotTables.LookAtJoin` | crates/connetto-client/src/hotspot.rs:689-741 | the tick's join row in place is the table's |
| `HotspotMachine.HotspotTables.LookAtDial` | crates/connetto-client/src/hotspot.rs:743-788 | the tick's dial row in place is the table's |
| `HotspotMachine.HotspotTables.Look` | crates/connetto-client/src/hotspot.rs:613-788 | one tick in place is the table's tick, everything done so far still conserves callers, joins and dials, and nothing stands past its bound |
| `BluetoothRuns.StandingOverRuns` | crates/connetto-client/src/bluetooth.rs:1101-1425 | over every run at most four exchanges run, the platform scans exactly while the joiner is Scanning, and a host is held nearby exactly when its latest event is HostNearby |
| `BluetoothRuns.NoStrayAdvertisement` | crates/connetto-client/src/bluetooth.rs:1101-1140 | after any look where Bluetooth is not Ready, nothing is hosted or nothing is served, no advertisement stands |
| `BluetoothRuns.CloseStops` | crates/connetto-client/src/bluetooth.rs:1883-1906 | the close stops the advertisement and the scan |
| `BluetoothRuns.StreamsEndInTime` | crates/connetto-client/src/bluetooth.rs:1498-1528 | after any look a joiner's exchange whose stream runs is within its bound |
| `BluetoothRuns.BoundEndsExactly` | crates/connetto-client/src/bluetooth.rs:1507-1523 | a look past the bound that hears no host ends the exchange if and only if its stream runs |
| `BluetoothRuns.UnconnectedOutlives` | crates/connetto-client/src/bluetooth.rs:1507-1523 | an exchange that never connects outlives every such look, whatever the clock reads |
| `BluetoothRuns.NeverConnects` | crates/connetto-client/src/bluetooth.rs:1507-1523 | a run from a fresh start: the first look picks the only host it sees, and no number of looks that hear no host ends that exchange |
| `BluetoothRuns.PromptReplacesExchange` | crates/connetto-client/src/bluetooth.rs:982-993 | a prompt settled ready replaces a running exchange without disconnecting its host |
| `BluetoothMachine.BluetoothTables.LookAtCentral` | crates/connetto-client/src/bluetooth.rs:1049-1082 | the central's rows in place are the table's, and everything said so far still matches the tables |
| `BluetoothMachine.BluetoothTables.LookAtHost` | crates/connetto-client/src/bluetooth.rs:1101-1216 | the host's look in place is the table's, events and all; everything said so far matches the tables, and nothing is advertised where the beacon may not run |
| `BluetoothMachine.BluetoothTables.EndFinished` | crates/connetto-client/src/bluetooth.rs:1220-1263 | the walk over the exchanges ends exactly those with an outcome or at their bound |
| `BluetoothMachine.BluetoothTables.TakeHostEvents` | crates/connetto-client/src/bluetooth.rs:1373-1469 | the loop over the central's events is the table's |
| `BluetoothMachine.BluetoothTables.LookAtJoiner` | crates/connetto-client/src/bluetooth.rs:1307-1528 | the joiner's look in place is the table's, autojoin picking the strongest untried host, and everything said so far still matches the tables |
| `BluetoothMachine.BluetoothTables.StrongestUntriedHost` | crates/connetto-client/src/bluetooth.rs:1531-1537 | the host found is untried and none untried is stronger; none is found only when all were tried |
| `BluetoothMachine.BluetoothTables.CloseTables` | crates/connetto-client/src/bluetooth.rs:1883-1906 | the close in place is the table's, and leaves neither advertisement nor scan standing |
| `Gate.GateSafety` | crates/connetto-client/src/away.rs:375-560 | over every call sequence prompting implies locked, a locked gate keeps no away moment, and the last notice since arming (or the arming) says what the gate is |
| `Gate.ReturnLocksExactly` | crates/connetto-client/src/away.rs:422-456 | a return locks an open gate with a kept moment if and only if the grace is zero or the time away by either clock exceeds it, so the monotonic clock alone suffices however the wall clock was stepped |
| `Gate.KeptMoment` | crates/connetto-client/src/away.rs:394-410 | the kept moment is the last one the open gate heard, with no return or arming since |
| `Gate.LockChanges` | crates/connetto-client/src/away.rs:375-560 | only an overdue return, a forced lock or an arming locks; only an approval, a forced unlock or an arming opens |
| `Gate.OnePromptAtATime` | crates/connetto-client/src/away.rs:533-560 | an owner that arms once, forces no lock and resolves only started prompts never has two in flight |
| `Gate.GateController.Enable` | crates/connetto-client/src/away.rs:350-383 | arming in place is the model's, and the gate is where its calls lead |
| `Gate.GateController.WentAway` | crates/connetto-client/src/away.rs:394-410 | an away moment heard in place is the model's, and the gate is where its calls lead |
| `Gate.GateController.AskToUnlock` | crates/connetto-client/src/away.rs:465-477 | an unlock call in place is the model's, answering whether a prompt started, and the gate is where its calls lead |
| `Gate.GateController.CameBack` | crates/connetto-client/src/away.rs:422-456 | a return in place is the model's, answering whether a prompt started, and the gate is where its calls lead |
| `Gate.GateController.ApplyOutcome` | crates/connetto-client/src/away.rs:533-547 | a resolved prompt in place is the model's, and the gate is where its calls lead |
| `Gate.GateController.ForceLock` | crates/connetto-client/src/away.rs:489-503 | a forced lock in place is the model's, and the gate is where its calls lead |
| `Backoff.WaitGrowsToItsCeiling` | crates/connetto-core/src/backoff.rs:134-142 | the deterministic wait never shrinks as attempts mount and never exceeds its ceiling |
| `Backoff.JitterWindow` | crates/connetto-core/src/backoff.rs:229-235 | a wait below 2^64 nanoseconds is jittered into the window from its half to its whole |
| `Backoff.EpisodeKeeps` | crates/connetto-core/src/backoff.rs:185-207 | the attempts counted are the calls, the time waited is the sum handed out, and it never exceeds the total cap |
| `Backoff.EndedStaysEnded` | crates/connetto-core/src/backoff.rs:185-207 | an ended episode stays ended until reset, however many calls follow |
| `Backoff.AttemptCapExactly` | crates/connetto-core/src/backoff.rs:186-193 | an attempt-capped episode ends after exactly that many waits or when the total cap is spent, an attempt cap of the largest 32-bit integer never ending it |
| `Backoff.WaitsAreBounded` | crates/connetto-core/src/backoff.rs:194-207 | with a total cap and waits of at least a millisecond, at most one wait is handed out per half millisecond of the cap, rounded up |
| `Backoff.Driver.Reset` | crates/connetto-core/src/backoff.rs:222-225 | a reset is a fresh episode |
| `Backoff.Driver.NextWait` | crates/connetto-core/src/backoff.rs:185-207 | the driver in place answers what the episode since its reset answers, its calls counted, its waits summed and its total cap kept |
| `Resting.FrameStaysAtHome` | crates/connetto-client/src/aggregates.rs:100-131 | a frame changes its own statistic's rows and no other's |
| `Resting.FrameReadsBack` | crates/connetto-client/src/aggregates.rs:108-130 | a frame that is no whole answer touches the one row it addresses, removing it or writing its body |
| `Resting.WholeAnswerReadsBack` | crates/connetto-client/src/aggregates.rs:212-261 | after a whole answer the group lookup is exactly the array in order and no scalar rests |
| `Resting.PositionOrder` | crates/connetto-client/src/aggregates.rs:244-248 | 8-byte big-endian keys sort as their numbers |
| `Resting.ListingIsOne` | crates/connetto-client/src/aggregates.rs:315-343 | the group lookup's order is determined by the stored keys |
| `Resting.ApplyFrame` | crates/connetto-client/src/aggregates.rs:100-131 | the frame's dispatch computes the model's table |
| `Resting.ReplaceWhole` | crates/connetto-client/src/aggregates.rs:212-261 | the loop writes one positional row per element over the cleared statistic |
| `Resting.EnforceCap` | crates/connetto-client/src/aggregates.rs:359-396 | exactly the smaller of the excess and the unprotected count are evicted, the oldest unprotected ones |
| `Resting.CapLeaves` | crates/connetto-client/src/aggregates.rs:359-396 | what stays is everything else, at most the larger of the cap and the watched, and every watched row |
| `Base32.Quintets` | crates/connetto-client/src/bots.rs:232-252 | the bit buffer's loops cut the input's bits into fives, zeros filling the last, the buffer never outgrowing twelve bits |
| `Base32.RoundTrip` | crates/connetto-client/src/bots.rs:232-258 | the encoding has as many characters as fives of bits, rounded up, and decodes back to the input |
| `Base32.GroupsOfFour` | crates/connetto-client/src/bots.rs:253-257 | the display form is groups of four, only the last one shorter |
| `Base32.Base32Groups` | crates/connetto-client/src/bots.rs:232-258 | the display form is the grouped letters of such an encoding |
| `Civil.CivilIsTheCalendar` | crates/connetto-client/src/bots.rs:275-287 | every day count gives a valid proleptic Gregorian date, the next count the next date, and the conversion is the calendar counted from the epoch |
| `Civil.FieldsNameOneSecond` | crates/connetto-client/src/bots.rs:262-270 | the fields are a date and a time of day and name one second only |
| `Civil.TextReadsBack` | crates/connetto-client/src/bots.rs:262-270 | through year 9999 the text has the shape of section 5.6 of RFC 3339, separators in place and digits everywhere else, and its fields read back |

## Left out

- WriterRuns: a database call that fails. Each operation's statements commit together or not at all, but for the frontier raise, which is modelled as the code orders it.
- WriterRuns.StepGood: a server that issues a number twice, or whose frontier passes the storage integer.
- WriterConnection.ConnettoConnection.CarryWriters: a target among several dead writers, which the source's debug assertion excludes and no caller passes.
- WriterOrder.ExportThenRestore: the archive's bytes. An archive is the list of entries it decodes to.
- WriterTheorems.NeverResent: the resend timer and its deferral schedule. A resend is an event that may come at any time.
- CoverageTheorems.ClaimsAreSound: attaching over a live wire, wall clocks and grant expiry times. An expiry names the keys it finds dead. A frame the transport refuses counts as sent.
- CoverageTheorems.CrashSound: a database failure while a removed key is being re-rendered, after which the stored set lacks a key the client still holds.
- Retention.DeleteUncovered: the rename between logical and backing tables, the count of removed rows, foreign-key cascades and the freelist trim.
- Retention.PendingSpare: a pending changeset that does not parse, on which the source gives up the eviction.
- Resync.ReapplyPending: constraint and foreign-key conflicts, and the encoding of changesets, which are lists of operations here.
- HotspotRuns.EveryCallerIsOwedOrAnswered: what the application's and the platform's own threads do between ticks.
- BluetoothRuns.StandingOverRuns: the callers' answers, the prompt batch, the hosted and joined answers and the panel's channels.
- Gate.OnePromptAtATime: the state lock and the prompt's future. Calls are one at a time.
- Backoff.JitterWindow: the mixing function. A draw is any 64-bit integer.
- Resting.WholeAnswerReadsBack: JSON parsing and rendering. A body comes with the elements of its array.
- Base32.RoundTrip: the registration code's hashing and storage.
- The hotspot's Apple rejoin and the parsing of Wi-Fi payloads, short straight-line logic.
- Enrolment, authentication, key custody, encryption, the relay, teardown, attachments and the server.
- The query DSL, live watches and the subscription records, which are inputs here.
