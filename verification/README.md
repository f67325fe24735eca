# TinyPaws core: verified model

A Dafny model of the stateful core of TinyPaws, and proofs about it:

* **VPN ownership** between a UI process and VPN Extension processes, any of which may crash at any
  point: a durable owner journal, two exclusive leases and two shared-memory lanes
  (`OwnerJournal`, `PlatformState`, `PlatformRuns`, `PlatformLaws`, `PlatformCore`, `Session*`, `MoveFacts`,
  `Ownership*`).
* **The double-slot frame store** those lanes live in (`Checksum`, `FrameStore`), byte by byte
  (`FrameLayout`).
* **Proxy-group reachability** and the choice Global mode makes from it (`Routing`).
* **The ELF PT_LOAD fingerprint** of the build manifest (`ElfFingerprint`), read off the bytes of the file
  (`ElfLayout`).
* **Supporting cores**: configuration transactions (`ConfigTransactions`, `ConfigLaws`), the
  Clash-to-sing-box rule compiler, what it makes of the rule text and its agreement with Clash
  (`RuleCompiler`, `RuleTexts`, `ClashAgreement`), the resumable log buffer (`RuntimeLog`), rule
  reconciliation and the three-way merge (`Controller`), the socket evidence join (`SocketEvidence`).

`dafny verify dfyconfig.toml` checks everything. No file needs another library.

## How the ownership proof is built

`PlatformState` gives every transition of a process's platform session as a function of its core and
of what it observes (the peer's lane, clocks, the native worker). `PlatformCore.CoreHandle` and
`PlatformCore.OwnerStore` are the source's objects: methods that update their fields in place, each
proved equal to those functions, including the frames published on the way. `PlatformLaws` pins the
functions from outside: for each operation exactly when it succeeds and every field it leaves, in
terms of the fields it starts from.

Where a method touches the shared store more than once, `PlatformRuns` says what it computes as one
function, and `OwnershipMethods` shows that these functions are the uninterrupted runs of the split
actions below, so the theorems about every interleaving are about those methods.

`SessionMoves` turns the stretches between two accesses to the shared store into moves; statements
about every run of moves hold for any delivery order, any peer and any clock. `SessionTheorems` proves
the OS-stop fence, the heartbeat watchdog and the recovery budget that way.

`OwnershipWorld` is the whole system as a step relation: one action per access to journal, lease or
lane, so acquiring a lease and upgrading the journal are separate actions and every race between them
is a history. `OwnershipInvariant` states the inductive invariant; `OwnershipSteps`, `OwnershipRaces`
and `OwnershipClosing` show each of the 32 actions keeps it; `OwnershipTheorems` draws the safety
theorems; `OwnershipRuns` shows that the life of each process in any history is a run of moves, and
`OwnershipFence` carries the OS-stop fence through every history. `OwnershipLiveness` shows that the
barriers open again: a start after the acknowledgement succeeds, and a committed start reaches the UI.
`OwnershipLaws` ties the remaining actions, a whole recovery round among them, to the same functions.

## What turned out not to hold

* A frame that is too large consumes its generation before the size check
  (`crates/paws_core/src/platform_ipc.rs:218-219`, `263-268`), so the next frame is written over the
  live slot and a crash inside that write can lose the committed frame. `FrameStore.CrashSafeIff` says
  exactly when a write is crash-safe; `FrameStore.RejectedFrameCostsASlot` is this case and
  `FrameStore.LastGenerationIsNotCrashSafe` the saturated seed.
* An unselected GLOBAL falls back to DIRECT whenever DIRECT is a member, although the comment at
  `crates/paws_core/src/routing.rs:154-156` says "when the subscription exposes no concrete proxy
  nodes". `Routing.ChoiceIff` gives the exact condition, `Routing.DirectShadowsNodes` an instance.
* A failed refresh of a profile that was not active, with no engine loaded, leaves that profile active
  at an unchanged configuration revision when the reload failed only after activating it
  (`ConfigTransactions.TokenWhateverFailsIff`, `ConfigTransactions.RefreshCanLeakActivation`). Stored GLOBAL
  selections may also change at an unchanged revision; nothing else does.
* A compiled route may name an outbound that is not in the configuration: group names count as
  available even when the group has no usable member (`RuleCompiler.DanglingIff`).
* The compiled list does not always send a flow where Clash does: a rule that is skipped, because its
  kind cannot be translated or its target is unavailable, still decides in Clash
  (`ClashAgreement.SkippedRulesDivert`), and a rule after a MATCH is dead in Clash and alive in the
  compiled list (`ClashAgreement.RulesAfterMatchComeAlive`). `ClashAgreement.AgreesWithClashIff` is the
  exact condition, rule by rule; `ClashAgreement.AgreesOnFlowsIff` decides it for flows.
* The saturating 64-bit counters lose their meaning at their last value
  (`ConfigTransactions.SaturatedRevisionLosesTheCheck`, `RuntimeLog.SaturatedSequenceStopsPersistence`).

## Model

| member | source | states |
|---|---|---|
| `OwnershipTheorems.BoundOwnerIsTheJournals` | `crates/paws_core/src/lib.rs:3685-3776` | in every history, an Extension that finished binding and still holds its lease is exactly the journal's Attached owner, and it is the only one |
| `OwnershipTheorems.EntryOutlivesItsOwner` | `crates/paws_core/src/lib.rs:3962-3992` | an Attached entry leaves the journal only by its owner's own acknowledgement or after its owner died, and until then no attempt is issued |
| `OwnershipTheorems.NoStartBesideALivingOwner` | `crates/paws_core/src/lib.rs:3559-3585` | while a bound owner lives and has not acknowledged, no start succeeds and no other Extension is bound |
| `OwnershipTheorems.ExactlyOneWins` | `crates/paws_core/src/platform_owner.rs:283-352` | a history in which the journal once said Stopping for an attempt never says Attached for it, before or after, and never binds it |
| `OwnershipTheorems.ReachableInv` | `crates/paws_core/src/platform_owner.rs:203-450` | every world reachable by any interleaving and any crashes satisfies the ownership invariant |
| `OwnershipTheorems.StepInv` | `crates/paws_core/src/platform_owner.rs:203-450` | each of the 32 actions keeps the ownership invariant |
| `OwnershipTheorems.StepRemembers` | `crates/paws_core/src/lib.rs:4062-4149` | no action forgets a past owner, fence or retirement, and an Attached entry survives every action but its owner's acknowledgement unless the owner is dead |
| `OwnershipRaces.BindSwapInv` | `crates/paws_core/src/lib.rs:3713-3775` | winning or losing the Pending-to-Attached race keeps the invariant |
| `OwnershipClosing.ClaimFenceInv` | `crates/paws_core/src/lib.rs:4540-4580` | winning or losing the Pending-to-Stopping race keeps the invariant |
| `OwnershipClosing.AckDeleteInv` | `crates/paws_core/src/lib.rs:3974-3992` | the cleanup acknowledgement retires the attempt and gives up both leases without breaking anyone else's ownership |
| `OwnershipClosing.RecoverObserveInv` | `crates/paws_core/src/lib.rs:4062-4149` | a release proof observed while the owner still stands means that owner is dead, however stale the read is by then |
| `OwnershipClosing.RecoverDeleteInv` | `crates/paws_core/src/lib.rs:4141-4150` | deleting on a stale proof never removes a replacement owner's entry |
| `OwnershipClosing.BeginCreateInv` | `crates/paws_core/src/lib.rs:3568-3611` | creating a Pending entry and resetting the core keeps the invariant, whatever part of its frame was published |
| `OwnershipSteps.CrashInv` | `crates/paws_core/src/platform_owner.rs:191-201` | a crash anywhere, which frees exactly the leases of the dead process, keeps the invariant |
| `OwnershipInvariant.ActInv` | `crates/paws_core/src/lib.rs:7882-8026` | one move of one process, wherever it stands in a method and whatever of its frames reached the lane, keeps the whole invariant |
| `OwnershipRuns.StepIsMove` | `crates/paws_core/src/lib.rs:3523-4586` | every action of the system is, for every process that survives it, one enabled move of its core, and changes a UI lane only by that move's frames |
| `OwnershipRuns.LifeIsARun` | `crates/paws_core/src/lib.rs:3523-4586` | the life of a process in any history is a run of moves that begins only fresh attempts, so the run theorems apply to it |
| `OwnershipRuns.UiNeverRevives` | `crates/paws_core/src/lib.rs:7980-8003` | in the whole system, an attempt a UI process once saw Failed or Cancelled is Failed or Cancelled whenever it carries it again |
| `OwnershipRuns.UiRecoversAtMostThrice` | `crates/paws_core/src/lib.rs:4375-4450` | in the whole system, a UI process claims at most three recoveries for one dead attempt in its life, whatever Extensions, clocks and crashes do |
| `OwnershipFence.OsStopHoldsEverything` | `crates/paws_core/src/lib.rs:3446-3510` | in the whole system, from a dispatched OS stop until the UI process reports exactly that stop, its fence stays in flight, no start, claim or second OS stop passes, and nobody issues an attempt, whatever Extensions, clocks and crashes do |
| `OwnershipLiveness.StartAfterAcknowledgement` | `crates/paws_core/src/lib.rs:3523-3619` | in every history, once an Extension's acknowledgement has emptied the journal and no other start came between, the next undisturbed start of a UI process that hears of the cleanup succeeds: it owns entry and lease and carries the fresh attempt |
| `OwnershipLiveness.CommitReachesUi` | `crates/paws_core/src/lib.rs:7967-8020` | in every history, once an Extension's committed start is in its lane, a UI process that reads that frame of its own unfinished attempt is Connected and running, and calls off any recovery |
| `OwnershipLiveness.IssuerIsKnown` | `crates/paws_core/src/lib.rs:3568-3611` | in every history, whoever holds the issuer lease is the living UI process whose core or whose start in progress says so, so no lease is ever left behind |
| `OwnershipRuns.MarkPersists` | `crates/paws_core/src/lib.rs:4519-4538` | a terminal frame in the UI lane stays terminal until the UI process begins another attempt |
| `OwnershipRuns.CancelIsFinal` | `crates/paws_core/src/lib.rs:3786-3795` | once the stop mark is in the UI lane, no Extension step that reads that lane leaves the attempt Pending or Connected there |
| `MoveFacts.MovePlain` | `crates/paws_core/src/lib.rs:7882-8026` | where a move's attempt, cleanup flag, released lease, published frames and high-water mark can come from |
| `SessionMoves.MoveKeepsBarrier` | `crates/paws_core/src/lib.rs:7980-8003` | no move and no received frame, however malformed or late, sets `cleanup_complete` on a live attempt or revives a finished one, in the core or in any published frame |
| `SessionMoves.TerminalIsAbsorbing` | `crates/paws_core/src/lib.rs:3636-3661` | over every run, Failed or Cancelled stays so while the core carries the attempt |
| `SessionMoves.BarrierOverRuns` | `crates/paws_core/src/lib.rs:3588-3602` | over every run, `cleanup_complete` implies a terminal outcome, not starting and not running |
| `SessionMoves.FinishedAttemptNeverRevives` | `crates/paws_core/src/lib.rs:7896-7919` | in a UI run with fresh attempt ids, a finished attempt is still finished whenever it is carried again later |
| `SessionTheorems.InFlightShutsEveryGate` | `crates/paws_core/src/lib.rs:3446-3474` | while an OS stop is in flight no start passes, no stop is claimed and no second OS stop is dispatched |
| `SessionTheorems.OsStopFenceHolds` | `crates/paws_core/src/lib.rs:3446-3510` | from a successful dispatch to its exact completion or failure the fence is untouched in every run: no start begins, no stop is claimed and no second OS stop is dispatched |
| `SessionTheorems.FailedStopKeepsFence` | `crates/paws_core/src/lib.rs:3494-3510` | a failed or retried stop keeps starts blocked and the fenced attempt fixed until a stop of exactly that attempt completes |
| `SessionTheorems.TickReportsTheTruth` | `crates/paws_core/src/lib.rs:4799-4889` | a tick reports Connected only for its own live, attached, running attempt that nobody asked to stop, Stopping exactly when somebody did, and Failed only when it failed |
| `SessionTheorems.HeartbeatFailureIsProven` | `crates/paws_core/src/lib.rs:9204-9231` | a heartbeat failure has an earlier observation, at least 6 s before, that was already stale with nothing newer since, and no newer frame in the last 21 s |
| `SessionTheorems.CounterStep` | `crates/paws_core/src/lib.rs:4375-4427` | the recovery counter moves by one per claim and is reset only together with a change to another dead attempt |
| `SessionTheorems.AtMostThreeRecoveries` | `crates/paws_core/src/lib.rs:4375-4450` | over whole runs one dead attempt yields at most three recovery claims |
| `SessionTheorems.LaterClaimsWaitForBackoff` | `crates/paws_core/src/lib.rs:4429-4450` | the second claim comes at least 10 s and the third at least 30 s after the rearm that enabled it |
| `PlatformLaws.LiveFrameIsTaken` | `crates/paws_core/src/lib.rs:7967-8020` | every field after a newer live frame of an unfinished attempt: a running one makes Pending Connected, and cancels a pending recovery |
| `PlatformLaws.FinalFrameIsTaken` | `crates/paws_core/src/lib.rs:7967-8020` | every field after a newer final frame: it decides outcome, cleanup and attachment, and its cleanup gives up the leases |
| `PlatformLaws.LateFrameMovesNothing` | `crates/paws_core/src/lib.rs:7967-8012` | a live frame after the end moves nothing of the lifecycle |
| `PlatformLaws.OldFrameOnlyTells` | `crates/paws_core/src/lib.rs:7922-7958` | a frame that is not newer changes no session, except that a UI core which has noticed the silence for 6 s fails its attempt and, if it was connected, asks for a recovery |
| `PlatformLaws.WantedFrameIsAdopted` | `crates/paws_core/src/lib.rs:7896-7919` | the session an Extension carries after adopting the attempt its Want names is that of the frame, normalized like any other |
| `PlatformLaws.BeginSucceedsIff` | `crates/paws_core/src/lib.rs:3523-3619` | a start succeeds exactly when fence, session, worker, journal and issuer lease allow it, and everything it then leaves |
| `PlatformLaws.AdoptsIff` | `crates/paws_core/src/lib.rs:3622-3661` | an attempt is taken up exactly when the lane offers it and this core did not itself end it |
| `PlatformLaws.TakesIff` | `crates/paws_core/src/lib.rs:3662-3776` | its entry is taken exactly when it is Pending under a held issuer lease and the Extension lease is free, or attached to this holder or to an owner whose lease is free |
| `PlatformLaws.AnnouncesOwner` | `crates/paws_core/src/lib.rs:3780-3828` | announcing attaches the attempt to this process, and what it publishes and when |
| `PlatformLaws.BindSucceedsIff` | `crates/paws_core/src/lib.rs:3622-3828` | a bind succeeds exactly when the attempt may be taken up and its entry taken |
| `PlatformLaws.BindFrees` | `crates/paws_core/src/lib.rs:3622-3828` | what a bind drops while reading the lane is free in the store, a refused one takes nothing, and a successful one holds the Extension lease as long as its core keeps it |
| `PlatformLaws.AckSucceedsIff` | `crates/paws_core/src/lib.rs:3926-3995` | an acknowledgement succeeds exactly for an ended attempt that is already clean, or whose attached owner with the lease this process is; everything it then gives up |
| `PlatformLaws.FailSucceedsIff` | `crates/paws_core/src/lib.rs:4275-4316` | failing a start succeeds exactly for this pending attempt, and waiving its cleanup exactly while its entry is still pending |
| `PlatformLaws.CancelSucceedsIff` | `crates/paws_core/src/lib.rs:4319-4336` | a cancel succeeds exactly for this pending attempt |
| `PlatformLaws.RequestSucceedsIff` | `crates/paws_core/src/lib.rs:4342-4373` | a stop request succeeds exactly when the attempt is clean, or attached, unfinished and not lost to the watchdog |
| `PlatformLaws.ClaimSucceedsIff` | `crates/paws_core/src/lib.rs:4456-4582` | a stop is claimed exactly at the current intent with no OS stop in flight, for a retained fence whose owner is gone or an owner this core agrees with that can still be fenced; there is nothing to stop exactly when there is neither |
| `PlatformLaws.ClaimMarksFirst` | `crates/paws_core/src/lib.rs:4519-4538` | before it races, a claim of the own attempt marks it stopped and publishes that; otherwise only the fence moves |
| `PlatformLaws.RoundFinishesIff` | `crates/paws_core/src/lib.rs:4015-4193` | a recovery round ends exactly when the attempt is clean, or the owner it read is gone and that entry is still there; it goes round again exactly when the entry changed or the owner lives and there is time |
| `PlatformLaws.FirstDecisionCounts` | `crates/paws_core/src/lib.rs:4015-4193` | the recovery loop makes its rounds each on what the one before left and ends with the first that decides |
| `PlatformLaws.TickLaw` | `crates/paws_core/src/lib.rs:4799-4889` | the beat and the session after a tick in every case: a running worker of an attached, unfinished attempt that nobody asked to stop is reported and made Connected |
| `PlatformLaws.CommitSucceedsIff` | `crates/paws_core/src/lib.rs:3057-3091` | a worker's start is committed exactly while its attempt is attached and unfinished, and then it is Connected and running |
| `PlatformLaws.OwnerLostLaw` | `crates/paws_core/src/lib.rs:7780-7832` | an owner is lost exactly when the entry still names the attached owner of this unfinished attempt; a connected one asks for recovery |
| `PlatformLaws.RecoveryClaimedIff` | `crates/paws_core/src/lib.rs:4383-4426` | a recovery is claimed exactly when one is due: asked for, or for an orphan found by a core that never ran anything; below the limit and after the backoff |
| `PlatformLaws.OsStopIff` | `crates/paws_core/src/lib.rs:3446-3510` | an OS stop is dispatched exactly for the retained fence of the current intent or without one for no attempt, and completed or failed exactly as dispatched |
| `PlatformRuns.RecoveredMeansProven` | `crates/paws_core/src/lib.rs:4015-4193` | a successful recovery leaves the attempt closed here, and unless the Extension acknowledged itself, some round deleted exactly the entry whose owner that round had proven gone |
| `PlatformCore.OwnerStore.CreatePendingExact` | `crates/paws_core/src/platform_owner.rs:261-281` | success means exactly this Pending record stands; only a missing journal is ever overwritten, and repeating the call is harmless |
| `PlatformCore.OwnerStore.UpgradeAttachedExact` | `crates/paws_core/src/platform_owner.rs:283-319` | success means the journal is attached to this process for the exact attempt and issuer; only an unattached Pending entry is ever changed |
| `PlatformCore.OwnerStore.FencePendingStopExact` | `crates/paws_core/src/platform_owner.rs:325-352` | fenced means exactly this Stopping record stands; only this Pending record is ever changed, and on a sound journal a conflict is only a malformed request |
| `PlatformCore.OwnerStore.RebindAttachedExact` | `crates/paws_core/src/platform_owner.rs:358-399` | success means this process is the attached owner; only the entry attached to the expected process is ever changed |
| `PlatformCore.OwnerStore.DeleteOwnerExact` | `crates/paws_core/src/platform_owner.rs:401-426` | deletes exactly when the entry has this attempt and this extension, and changes nothing otherwise |
| `PlatformCore.OwnerStore.DeletePending` | `crates/paws_core/src/platform_owner.rs:431-450` | deletes only a Pending entry that nobody attached or stopped, and changes nothing otherwise |
| `PlatformCore.OwnerStore.AcquireExtension` | `crates/paws_core/src/platform_owner.rs:203-218` | a lease is taken exactly when nobody, not even the same process, holds it |
| `PlatformCore.CoreHandle.PersistState` | `crates/paws_core/src/lib.rs:7710-7735` | every published frame carries the session and a strictly newer revision than all before |
| `PlatformCore.CoreHandle.WatchdogExpired` | `crates/paws_core/src/lib.rs:9204-9231` | it expires only on a second look: at least 6 s after a stale observation that nothing newer followed, 15 s after the last newer frame; it changes nothing but the watch |
| `PlatformCore.CoreHandle.MergeRemoteSession` | `crates/paws_core/src/lib.rs:7967-8020` | a newer live frame of an unfinished attempt makes a running Pending attempt Connected, sets running, starting and engine, unsets the cleanup and calls off the recovery; a final one ends it as it says; a stop request is sticky |
| `PlatformCore.CoreHandle.ApplyEnvelope` | `crates/paws_core/src/lib.rs:7882-8026` | only an Extension changes its attempt, and only to the one its Want names; a foreign frame changes nothing, a finished attempt stays finished, only a failure is published, and a newer frame of the carried attempt leaves exactly the live or final session it describes |
| `PlatformCore.CoreHandle.SyncState` | `crates/paws_core/src/lib.rs:7834-7856` | reading the peer's lane keeps the attempt, never revives a finished one and acquires no lease |
| `PlatformCore.CoreHandle.AdvanceVpnIntent` | `crates/paws_core/src/lib.rs:3411-3418` | a new intent is above every earlier one and the fence stays; it is refused exactly at the last 64-bit value |
| `PlatformCore.CoreHandle.BeginVpnOsStop` | `crates/paws_core/src/lib.rs:3446-3471` | a dispatch needs an open or a matching retained fence that is not in flight, and leaves exactly this stop in flight |
| `PlatformCore.CoreHandle.CompleteVpnOsStop` | `crates/paws_core/src/lib.rs:3476-3492` | it succeeds exactly for the stop in flight, and nothing else opens the fence |
| `PlatformCore.CoreHandle.FailVpnOsStop` | `crates/paws_core/src/lib.rs:3496-3510` | a failed stop keeps the fenced attempt and makes it claimable again; anything but the stop in flight changes nothing |
| `PlatformCore.CoreHandle.BeginPlatformStart` | `crates/paws_core/src/lib.rs:3523-3619` | a start succeeds exactly when, once the lane is read, the fence is open for this intent, no attempt is pending, running or waiting for its cleanup, no native worker runs, and journal and issuer lease are free, said on the fields before the call for an empty lane; then this process owns both and carries exactly the fresh Pending attempt; otherwise journal and attempt are as before |
| `PlatformCore.CoreHandle.AdoptForBinding` | `crates/paws_core/src/lib.rs:3622-3661` | success means this attempt is carried alive, its frame was a start frame, and it is Connected only if the native worker runs |
| `PlatformCore.CoreHandle.TakeOwnership` | `crates/paws_core/src/lib.rs:3662-3776` | ownership is taken only with the issuer's lease held or the previous owner's released, and a refusal changes nothing |
| `PlatformCore.CoreHandle.BindPlatformStart` | `crates/paws_core/src/lib.rs:3622-3778` | a bind that succeeds leaves the journal attached to this process and the core announcing it; the journal changes only that way and never from Stopping |
| `PlatformCore.CoreHandle.PublishBinding` | `crates/paws_core/src/lib.rs:3780-3828` | it succeeds exactly while the attempt is still this core's, then this process is its attached owner; a terminal frame that arrived in between stays terminal |
| `PlatformCore.CoreHandle.CompleteCleanup` | `crates/paws_core/src/lib.rs:3926-3995` | the entry is deleted only if this process was its attached owner, held the lease and has finished the attempt; then it gives up both leases, and success always means the attempt is finished and marked clean |
| `PlatformCore.CoreHandle.FailStartIf` | `crates/paws_core/src/lib.rs:4275-4316` | success fails exactly this attempt; the cleanup is waived only together with deleting its still pending entry, and the journal changes in no other way |
| `PlatformCore.CoreHandle.CancelPlatformStart` | `crates/paws_core/src/lib.rs:4319-4336` | success means this very attempt was unfinished and is now Cancelled and idle |
| `PlatformCore.CoreHandle.RequestPlatformStop` | `crates/paws_core/src/lib.rs:4342-4373` | success means this very attempt is already clean, or attached, unfinished and now marked to stop |
| `PlatformCore.CoreHandle.ClaimPlatformStop` | `crates/paws_core/src/lib.rs:4456-4582` | a claim leaves exactly its attempt fenced at the current intent, a retained fence keeps its attempt, a failure leaves the fence alone; uninterrupted, no Pending entry survives a claim; else it is the claim on the journal it then raced on |
| `PlatformCore.CoreHandle.RecoverCleanup` | `crates/paws_core/src/lib.rs:4015-4193` | a finished recovery leaves the attempt clean here; the loop equals its specification over whatever it observes round by round, deletions and dropped leases included |
| `PlatformCore.CoreHandle.ExtensionTick` | `crates/paws_core/src/lib.rs:4799-4889` | Connected is reported only for its own attached, running, unfinished attempt that nobody asked to stop, Failed only when it failed, Stopping exactly when somebody asked |
| `PlatformCore.CoreHandle.RefreshOwnerLiveness` | `crates/paws_core/src/lib.rs:7780-7832` | it changes the core only if the lease is free and the journal names this core's own attached owner, and then it fails that attempt |
| `PlatformCore.CoreHandle.ClaimAutoRecovery` | `crates/paws_core/src/lib.rs:4383-4426` | a claim comes only while nothing runs, after the backoff, counts by one and is at most the third |
| `PlatformCore.CoreHandle.RearmAutoRecovery` | `crates/paws_core/src/lib.rs:4429-4450` | it arms only after the first or second claim, for 10 s or 30 s from now, and never changes the count |
| `PlatformCore.CoreHandle.StopPlatformSession` | `crates/paws_core/src/lib.rs:4595-4619` | it succeeds exactly for the carried attempt, which is then finished, idle and marked to stop |
| `PlatformCore.CoreHandle.FinishPlatformStop` | `crates/paws_core/src/lib.rs:4620-4646` | a stale completion touches nothing of a newer attempt and publishes nothing; its own leaves the attempt idle and not Pending |
| `PlatformCore.CoreHandle.CommitVpnStart` | `crates/paws_core/src/lib.rs:3057-3091` | Connected and running is committed only for this attached attempt, and never for one that was finished before the lane was read |
| `PlatformCore.CoreHandle.StartExternalVpn` | `crates/paws_core/src/lib.rs:2891-2919` | an external engine runs as Connected only for this attached attempt, and never for one that was finished before |
| `PlatformCore.CoreHandle.SetVpnStarting` | `crates/paws_core/src/lib.rs:4742-4763` | only this attached, unfinished attempt reports starting, and only while Pending |
| `PlatformCore.CoreHandle.SetVpnFailed` | `crates/paws_core/src/lib.rs:4765-4778` | only this attached, unfinished attempt can be failed |
| `PlatformCore.CoreHandle.PublishNativeExit` | `crates/paws_core/src/lib.rs:4891-4923` | a worker's exit changes the core only if it carries that worker's unfinished attempt, which it fails |
| `OwnershipMethods.BeginUninterrupted` | `crates/paws_core/src/lib.rs:3523-3619` | the four actions of a start, with nobody in between, leave exactly the core, journal and leases that `BeginPlatformStart` promises, and touch no other process and no other lane |
| `OwnershipMethods.BindUninterrupted` | `crates/paws_core/src/lib.rs:3622-3828` | the same for the six actions of a bind and `BindPlatformStart`: every observation and compare-and-swap of an undisturbed bind succeeds or refuses as the method does |
| `OwnershipMethods.ClaimUninterrupted` | `crates/paws_core/src/lib.rs:4456-4582` | the same for the five actions of a stop claim and `ClaimPlatformStop`, its mark published |
| `OwnershipMethods.AckUninterrupted` | `crates/paws_core/src/lib.rs:3926-3995` | the same for the three actions of an acknowledgement and `CompleteCleanup` |
| `OwnershipMethods.FailUninterrupted` | `crates/paws_core/src/lib.rs:4275-4316` | the same for failing a start and `FailStartIf` |
| `OwnershipMethods.BeginIsActions` | `crates/paws_core/src/lib.rs:3523-3619` | the start chain is a history of the protocol's own actions, so the safety theorems apply to it; likewise `BindIsActions`, `ClaimIsActions`, `AckIsActions` and `FailIsActions` |
| `OwnershipMethods.BindAsActions` | `crates/paws_core/src/lib.rs:3622-3828` | calling the method on an object that shows a process of a world shows that process after the chain; likewise for start, claim, acknowledgement and failing |
| `OwnershipLaws.RecoverUninterrupted` | `crates/paws_core/src/lib.rs:4015-4193` | the five actions of a recovery round, with nobody in between, leave exactly what `PlatformRuns.RecoverRound` says, on core, store and lanes |
| `OwnershipLaws.CallIsAMove` | `crates/paws_core/src/lib.rs:2891-4923` | a single call of a process that may make it changes its core, its lane and its leases by exactly that call, and nobody else; any other call does nothing |
| `OwnershipLaws.LandsInOwnLane` | `crates/paws_core/src/lib.rs:7710-7735` | a move leaves in its own lane the published frame that landed, or what was there |
| `OwnershipLaws.CrashLaw` | `crates/paws_core/src/platform_owner.rs:191-201` | a crash frees the flocks of the process and loses its rounds; entry, lanes and everybody else stay |
| `OwnershipLaws.DeliveryLaw` | `crates/paws_core/src/lib.rs:8128-8148` | an Extension answers the final frame of exactly this attempt: seen, not attached, idle, under a newer revision, with the outcome and cleanup as written |
| `Checksum.OneByteChangesSum` | `crates/paws_core/src/platform_ipc.rs:789-793` | two byte strings that differ in exactly one byte have different checksums, whatever the length and position |
| `Checksum.SumLaw` | `crates/paws_core/src/platform_ipc.rs:789-793` | bit by bit: one more byte multiplies the sum by 16777619 in 32 bits and flips its low eight bits where the byte has ones |
| `Checksum.MultiplyInjective` | `crates/paws_core/src/platform_ipc.rs:789-793` | multiplication by 0x01000193 loses nothing modulo 2^32 |
| `Checksum.DecodeEncode` | `crates/paws_core/src/platform_ipc.rs:795-801` | little-endian integers survive encoding |
| `Checksum.ComputeSum` | `crates/paws_core/src/platform_ipc.rs:789-793` | the loop over the bytes computes the checksum that the detection theorem is about |
| `FrameStore.SlotsAreDisjoint` | `crates/paws_core/src/platform_ipc.rs:710-718` | the four slots of both lanes and the region header are disjoint and in bounds |
| `FrameStore.ParseInvertsHeader` | `crates/paws_core/src/platform_ipc.rs:261-282` | parsing inverts the header that a write builds |
| `FrameStore.ParseOnlyAcceptsHeaders` | `crates/paws_core/src/platform_ipc.rs:690-707` | whatever parses is, in its 28 checked bytes, exactly a header some write builds |
| `FrameStore.OneByteCorruptionRejected` | `crates/paws_core/src/platform_ipc.rs:690-707` | any one-byte change in the 28 checked header bytes is rejected |
| `FrameStore.TornPayloadKeepsFrame` | `crates/paws_core/src/platform_ipc.rs:261-282` | however a payload for the other slot is cut, a reader and a reattaching publisher still see exactly the committed frame |
| `FrameStore.WrittenHolds` | `crates/paws_core/src/platform_ipc.rs:261-282` | after the header write a reader gets exactly the new generation |
| `FrameStore.OtherLaneUnaffected` | `crates/paws_core/src/platform_ipc.rs:710-718` | publishing on one lane never shows on the other |
| `FrameStore.CrashSafeIff` | `crates/paws_core/src/platform_ipc.rs:261-282` | a write is crash-safe exactly when it goes to the other slot or its payload agrees with the live one as far as both go |
| `FrameStore.PublicationInStep` | `crates/paws_core/src/platform_ipc.rs:216-229` | while the publisher is in step, every publication is crash-safe at every point, then visible, and leaves it in step |
| `FrameStore.FreshRegionIsInStep` | `crates/paws_core/src/platform_ipc.rs:75-97` | on a zeroed region both lanes are empty and the first generation is in step |
| `FrameStore.ReattachIsInStep` | `crates/paws_core/src/platform_ipc.rs:254-259` | reattaching, even in the middle of a dead publisher's write, is in step again |
| `FrameStore.RejectedFrameCostsASlot` | `crates/paws_core/src/platform_ipc.rs:216-229` | after a frame that was too large the next write is crash-safe only if its payload agrees with the live one; completing it restores the order |
| `FrameStore.LastGenerationIsNotCrashSafe` | `crates/paws_core/src/platform_ipc.rs:254-259` | at the last generation the saturated seed points at the live slot |
| `FrameStore.HoldsMeansLatest` | `crates/paws_core/src/platform_ipc.rs:284-316` | reading a lane returns the committed frame, and the header scan its generation |
| `FrameLayout.LayoutLaw` | `crates/paws_core/src/platform_ipc.rs:710-718` | where each lane's slots are in the region, in bytes: even generations in the first half of their lane, odd ones in the second |
| `FrameLayout.WriteLaw` | `crates/paws_core/src/platform_ipc.rs:262-283` | a write leaves header and content at exactly their byte positions in the slot of its generation, and every other byte of the region as it was |
| `FrameLayout.ReadLaw` | `crates/paws_core/src/platform_ipc.rs:318-335` | a slot reads as a frame exactly when magic, version, both checksums and the length in its bytes say so |
| `FrameLayout.LatestLaw` | `crates/paws_core/src/platform_ipc.rs:285-316` | a lane shows its newest readable frame, and by headers alone its newest generation |
| `FrameStore.Store.WriteFrame` | `crates/paws_core/src/platform_ipc.rs:261-282` | payload then header in place, or nothing when the content is too large |
| `FrameStore.Store.Publish` | `crates/paws_core/src/platform_ipc.rs:216-229` | the generation is consumed even when the frame is rejected |
| `FrameStore.Reader.ReadFrame` | `crates/paws_core/src/platform_ipc.rs:318-335` | each read of the mapping sees the image of its moment: during a publication the committed slot always gives its frame, the slot being written gives its complete new frame or nothing newer than the committed one; on an unchanging image the three tries give the slot's frame |
| `FrameStore.Reader.ReadLane` | `crates/paws_core/src/platform_ipc.rs:284-302` | the lane read during a publication is the old frame or the complete new one, the new one if it was committed before the first read and the old one if not before the last; on an unchanging image the newest valid frame |
| `FrameStore.TryDuringPublication` | `crates/paws_core/src/platform_ipc.rs:318-335` | header, content and header again at any three moments of a publication never mix the two frames |
| `FrameStore.Store.LatestHeader` | `crates/paws_core/src/platform_ipc.rs:304-316` | the newest generation by headers alone |
| `FrameStore.Store.SeedNextGeneration` | `crates/paws_core/src/platform_ipc.rs:254-259` | the seed follows the newest header and saturates |
| `Routing.SearchIsLeastFixedPoint` | `crates/paws_core/src/routing.rs:52-95` | from an empty path the depth-first search accepts exactly the least fixed point of "routes through a proxy", on any finite and possibly cyclic graph |
| `Routing.IsFixedPoint` | `crates/paws_core/src/routing.rs:67-92` | the set it decides is closed under and justified by the unfolding rule |
| `Routing.IsLeast` | `crates/paws_core/src/routing.rs:67-92` | it is contained in every set closed under the unfolding rule |
| `Routing.RoutesByCase` | `crates/paws_core/src/routing.rs:52-95` | a built-in name, in any spelling, never routes; an unlisted name and a concrete proxy always; a group exactly when the member it is set to does, or, set to none, when it has members and all do |
| `Routing.ChoiceIff` | `crates/paws_core/src/routing.rs:97-169` | which target is chosen and which error is returned: the required one as it is, a valid current one, DIRECT whenever it is a member, else the first valid member |
| `Routing.SearchIsSound` | `crates/paws_core/src/routing.rs:52-95` | whatever is accepted on any path is in the fixed point |
| `Routing.SearchIsComplete` | `crates/paws_core/src/routing.rs:52-95` | whatever is derivable is accepted unless a visited name is derivable too |
| `Routing.PathsCanHideTargets` | `crates/paws_core/src/routing.rs:63-65` | on a longer path the search may reject a derivable target |
| `Routing.DirectShadowsNodes` | `crates/paws_core/src/routing.rs:153-157` | DIRECT is chosen although a concrete node is a member |
| `Routing.Router.RoutesThroughProxy` | `crates/paws_core/src/routing.rs:52-95` | the in-place search terminates, restores the visiting set and computes the search predicate |
| `Routing.Router.EnsureGlobalProxySelected` | `crates/paws_core/src/routing.rs:97-184` | the exact result and error of every path, a selector that does not settle on the forced name included, and that success leaves GLOBAL on a member that is DIRECT or a concrete proxy that still routes afterwards |
| `ElfFingerprint.EqualPreimagesIff` | `scripts/write-build-manifest.py:103-117` | two accepted files hash the same bytes exactly when normalized headers, PT_LOAD entries in order and normalized loaded bytes are equal |
| `ElfFingerprint.StrippingIsInvisible` | `scripts/write-build-manifest.py:4-8` | changing only section-table fields and bytes no segment loads keeps the fingerprint |
| `ElfFingerprint.LoadedChangeIsVisible` | `scripts/write-build-manifest.py:107-117` | any other changed loaded byte changes the hashed bytes |
| `ElfFingerprint.EntryInjective` | `scripts/write-build-manifest.py:108` | a program header entry is recoverable from its 56 bytes |
| `ElfLayout.EntryIsItsRow` | `scripts/write-build-manifest.py:90-108` | an entry is hashed as its own 56 table bytes, each field least significant byte first, and loaded from where bytes 8 to 15 say, as many bytes as bytes 32 to 39 say |
| `ElfLayout.ScanMeans` | `scripts/write-build-manifest.py:90-100` | the scan returns exactly the table's PT_LOAD entries in order, or the error of the first one outside the file or badly aligned, from the bytes of the table |
| `ElfLayout.ParseMeans` | `scripts/write-build-manifest.py:77-102` | why a file is refused, in the order of the checks, or the entries it is accepted with, from the bytes of the file alone |
| `ElfLayout.HashedBytes` | `scripts/write-build-manifest.py:103-117` | an accepted file is hashed as tag, header, number of entries, and each entry followed by the file bytes it loads, with bytes 40 to 47 and 58 to 63 blanked |
| `ElfFingerprint.NormalizeConcat` | `scripts/write-build-manifest.py:68-74` | where chunks are cut does not matter to normalization |
| `ElfFingerprint.StreamSha` | `scripts/write-build-manifest.py:40-50` | the bounded loop hashes everything or fails, exactly by whether the limit is exceeded, for every way the stream cuts its reads |
| `ElfFingerprint.NormalizeHeaderFields` | `scripts/write-build-manifest.py:68-74` | zeroes in place exactly the section-table bytes that fall inside the chunk |
| `ElfFingerprint.CollectLoads` | `scripts/write-build-manifest.py:90-100` | the scan keeps the PT_LOAD entries in order and reports the first bad one; `ElfLayout.ScanMeans` says of which table bytes |
| `ElfFingerprint.HashSegment` | `scripts/write-build-manifest.py:107-117` | the chunked loop feeds exactly the normalized segment, or fails exactly when the file is too short |
| `ElfFingerprint.ReadExactly` | `scripts/write-build-manifest.py:58-65` | one read that must return everything: exactly the range, or out of range, or truncated by the file or by a short read |
| `ElfFingerprint.ElfLoadFingerprint` | `scripts/write-build-manifest.py:77-123` | with a whole header and table the result is the fingerprint, by `ElfLayout.HashedBytes` of exactly the file bytes listed there, or the specified error, however the segments' reads are cut; a short read of either fails as truncated once the checks before it have passed |
| `ConfigTransactions.RevisionIsATokenIff` | `crates/paws_core/src/lib.rs:6891-7141` | for all four transactions and every way reload and rollback can fail, an unchanged revision means unchanged contents, rules and active profile, exactly unless an activation leaks |
| `ConfigTransactions.TokenWhateverFailsIff` | `crates/paws_core/src/lib.rs:7068-7102` | that holds however reload and undo end exactly unless the call refreshes, at the expected revision, an existing profile that is not active while no engine is loaded |
| `ConfigTransactions.RefreshCanLeakActivation` | `crates/paws_core/src/lib.rs:7068-7102` | the leak: same revision before and after, another profile active |
| `ConfigTransactions.SameRevisionSameConfiguration` | `crates/paws_core/src/lib.rs:1326-1337` | over whole runs, two readings with one revision saw the same configuration |
| `ConfigTransactions.AtMostOneCommits` | `crates/paws_core/src/lib.rs:1326-1337` | of two edits checked against the same revision at most one commits |
| `ConfigTransactions.SaturatedRevisionLosesTheCheck` | `crates/paws_core/src/lib.rs:1248-1268` | at the saturated revision both commit |
| `ConfigTransactions.TokenCoversSelectionsButGlobal` | `crates/paws_core/src/lib.rs:5350-5355` | at an unchanged revision no stored group selection but GLOBAL's changed |
| `ConfigLaws.CommitLaw` | `crates/paws_core/src/lib.rs:6951-7141` | for all four transactions, when one commits, and what then stands: the new contents under their id, every other profile, the rules and the selections but GLOBAL's as before, and a refreshed or imported profile active |
| `ConfigLaws.FailureLaw` | `crates/paws_core/src/lib.rs:6951-7141` | a transaction that fails before its reload changes nothing; one whose reload fails has its contents undone exactly if the undoing write succeeds, and keeps the revision exactly if then the runtime is back too |
| `ConfigLaws.ActiveAfterFailure` | `crates/paws_core/src/lib.rs:7037-7141` | which profile a failed transaction leaves active |
| `ConfigLaws.ReloadLaw` | `crates/paws_core/src/lib.rs:5190-5397` | when a reload succeeds, what it activates, and that it touches no more than one profile's GLOBAL selection |
| `ConfigTransactions.ReloadShape` | `crates/paws_core/src/lib.rs:5209-5397` | a reload, however it ends, changes no profile's contents |
| `ConfigTransactions.ConfigCore.ReloadConfig` | `crates/paws_core/src/lib.rs:5190-5397` | a failed reload may still have stored a GLOBAL selection or activated the profile; the exact remains of each way of ending |
| `ConfigTransactions.ConfigCore.MutateProfileConfig` | `crates/paws_core/src/lib.rs:6951-7035` | a profile edit commits, or restores the document it replaced, or publishes a new revision; `ConfigLaws.CommitLaw` says what then stands |
| `ConfigTransactions.ConfigCore.MutateProfileStoreConfig` | `crates/paws_core/src/lib.rs:6891-6949` | a failed rule edit restores the whole previous store, and the revision says so whenever it could not |
| `ConfigTransactions.ConfigCore.CommitPreparedRefresh` | `crates/paws_core/src/lib.rs:2081-2137` | a refresh commits, or restores the document and the previously loaded profile, or publishes a new revision |
| `ConfigTransactions.ConfigCore.CommitPreparedImport` | `crates/paws_core/src/lib.rs:1958-2016` | an import commits, or restores the whole store and the previously loaded profile, or publishes a new revision |
| `RuleCompiler.CompilationMeaning` | `crates/paws_core/src/lib.rs:8995-9057` | on every flow the compiled list decides: the first translated rule that matches, else the last MATCH with an available target, else the default |
| `RuleTexts.SourcesDecide` | `crates/paws_core/src/lib.rs:8995-9057` | from the text of the rules: the target of the first translated line that takes the flow, else of the last MATCH with an available target, else the default |
| `RuleTexts.ReadLaw` | `crates/paws_core/src/lib.rs:8997-9022` | how a line is read: MATCH from two comma-separated fields, any other rule from three, each trimmed, the kind in any case |
| `RuleTexts.MatchingLaw` | `crates/paws_core/src/lib.rs:9023-9044` | which kinds are translated, and that the matcher takes exactly the flows the text takes: equal name, name under the suffix, contained keyword, CIDR, port number, private address |
| `RuleTexts.FieldsOf` | `crates/paws_core/src/lib.rs:8997-8999` | the split of a line is the inverse of joining comma-free fields by commas; `FieldsLaw` is the other direction |
| `RuleTexts.PortLaw` | `crates/paws_core/src/lib.rs:9037-9041` | a port is a decimal number up to 65535, with leading zeros or one plus sign, and nothing else |
| `RuleTexts.FirstNameLaw` | `crates/paws_core/src/lib.rs:8962-8987` | the default starts from the group whose name comes first in the dictionary order of names |
| `RuleTexts.StartLaw` | `crates/paws_core/src/lib.rs:8962-8987` | where traffic starts from in each mode: the first group, else the first shadowsocks proxy, else direct; in Global mode the stored choice if it is available |
| `ClashAgreement.AgreesWithClashIff` | `crates/paws_core/src/lib.rs:8997-9054` | over all sets of matchers a flow can satisfy as far as any two matchers imply or exclude each other, it agrees with Clash exactly when no two positions divert: a line where Clash can stop, a skipped rule included, and a line or final outbound of another target that it goes with, no earlier line being implied |
| `ClashAgreement.FlowsAgree` | `crates/paws_core/src/lib.rs:8997-9054` | under that condition every flow of domain, address, port and foreign facts goes where Clash sends it, whatever the CIDR texts mean |
| `ClashAgreement.AgreesOnFlowsIff` | `crates/paws_core/src/lib.rs:8997-9054` | for flows themselves, where several rules together may shadow one, agreement on all flows is agreement on those whose domain has at most twice the longest rule text and five characters, given any one character that no rule text has |
| `ClashAgreement.FlowsAreLawful` | `crates/paws_core/src/lib.rs:9023-9044` | what a real flow satisfies respects every implication and exclusion between two matchers: a domain implies its suffixes, a suffix its keywords, two ports exclude each other |
| `ClashAgreement.UsualProfilesAgree` | `crates/paws_core/src/lib.rs:9008-9014` | it does when no readable rule was skipped and the only MATCH is last and available |
| `ClashAgreement.RulesAfterMatchComeAlive` | `crates/paws_core/src/lib.rs:9008-9014` | it does not when an unshadowed rule of another target follows MATCH |
| `ClashAgreement.SkippedRulesDivert` | `crates/paws_core/src/lib.rs:9018-9052` | it does not when a rule that cannot be translated, such as one on a process, names another target |
| `ClashAgreement.ShadowedRulesAreHarmless` | `crates/paws_core/src/lib.rs:9008-9044` | a rule after MATCH whose flows an earlier rule takes changes nothing |
| `RuleCompiler.EveryRuleIsCounted` | `crates/paws_core/src/lib.rs:8995-9054` | translated, skipped and MATCH rules add up to all string rules |
| `RuleCompiler.NamedTagsAreAvailable` | `crates/paws_core/src/lib.rs:9055-9057` | every target the configuration names is an available tag, so the last check never fires |
| `RuleCompiler.DanglingIff` | `crates/paws_core/src/lib.rs:8902-8954` | an available tag names no emitted outbound exactly when it is only the name of groups without a usable member |
| `RuleCompiler.SelectorExistsIff` | `crates/paws_core/src/lib.rs:8922-8954` | a tag has a selector exactly when some group of that name has a usable member |
| `RuleCompiler.RenderRules` | `crates/paws_core/src/lib.rs:8995-9054` | the rule loop with its counters equals the compilation, whose rules `RuleTexts.SourcesDecide` reads off the text |
| `RuleCompiler.Render` | `crates/paws_core/src/lib.rs:8882-9057` | what is emitted in each mode; rules are compiled in Rule mode only, and the last availability check is dead code |
| `RuntimeLog.EveryRunIsSound` | `crates/paws_core/src/log_recording.rs:200-296` | over every run, within one session each entry is written at most once and in capture order, the buffer stays bounded, and unless something was lost what was written and what is pending are exactly what was captured |
| `RuntimeLog.OnlyOverflowOrClearLoses` | `crates/paws_core/src/log_recording.rs:200-296` | within a session an unwritten entry is lost exactly by the 4096 overflow or an explicit clear, never by writing or trimming |
| `RuntimeLog.FlushMoves` | `crates/paws_core/src/log_recording.rs:251-290` | one flush moves a prefix of the pending entries to the archive and trims only entries already there |
| `RuntimeLog.SinceLaw` | `crates/paws_core/src/log_recording.rs:223-232` | a new session retains exactly the entries captured since it started |
| `RuntimeLog.TrimLaw` | `crates/paws_core/src/log_recording.rs:284-291` | trimming drops written entries from the front, and only while more than 256 are held |
| `RuntimeLog.SyncWrites` | `crates/paws_core/src/log_recording.rs:214-283` | a sync writes the first entries past the last one written, as many as writes succeed, and all of a new session's |
| `RuntimeLog.SyncWithoutWrites` | `crates/paws_core/src/log_recording.rs:214-254` | an unreadable marker changes nothing, no session forgets everything, and without an appender nothing is written |
| `RuntimeLog.SaturatedSequenceStopsPersistence` | `crates/paws_core/src/log_recording.rs:205-206` | once the sequence saturates and was written, later entries are never pending |
| `RuntimeLog.RuntimeLogBuffer.CaptureEntry` | `crates/paws_core/src/log_recording.rs:201-212` | an entry is appended under the next sequence; the oldest one goes only when 4096 are held |
| `RuntimeLog.RuntimeLogBuffer.WritePending` | `crates/paws_core/src/log_recording.rs:251-281` | the write loop stops at the first failure and remembers how far it came |
| `RuntimeLog.RuntimeLogBuffer.SyncTo` | `crates/paws_core/src/log_recording.rs:214-291` | adopting, ending or failing to read a session, and what reaches the archive before the first failing write |
| `RuntimeLog.RuntimeLogBuffer.ClearEntries` | `crates/paws_core/src/log_recording.rs:293-296` | nothing stays pending, and sequences go on, so later entries are still newer than everything written |
| `Controller.GreedyIsMaximum` | `crates/paws_core/src/controller.rs:532-556` | per trimmed line the greedy pass matches the smaller of how often it is loaded and how many enabled editable rules carry it |
| `Controller.NoMatchingDoesBetter` | `crates/paws_core/src/controller.rs:532-556` | no other assignment of distinct fitting rules matches more of them |
| `Controller.EveryEditableOnce` | `crates/paws_core/src/controller.rs:557-565` | every editable rule is the origin of exactly one summary |
| `Controller.RuntimeRuleSummaries` | `crates/paws_core/src/controller.rs:525-566` | the two loops: the first summaries are enabled and agree with the loaded lines up to trimming, and each order is its position |
| `Controller.LookupFindsTheRule` | `crates/paws_core/src/lib.rs:3374-3381` | searching by order finds the one summary of that loaded rule |
| `Controller.MergeExternal` | `crates/paws_core/src/controller.rs:395-440` | whatever the key order, the key loop equals a per-key specification |
| `Controller.MergeIsIdempotent` | `crates/paws_core/src/controller.rs:395-440` | merging the same change again changes nothing |
| `Controller.MergeCarriesChanges` | `crates/paws_core/src/controller.rs:421-435` | a profile that reflects the baseline reflects the current configuration afterwards, and runtime-only and non-string keys keep their value |
| `Controller.MergeByKey` | `crates/paws_core/src/controller.rs:421-435` | key by key: what is protected or unchanged stays; what changed is as in the current configuration, and gone if there it is null or absent |
| `Controller.ProtectedKeys` | `crates/paws_core/src/controller.rs:442-465` | which keys an import never changes |
| `Controller.MergesComposeIff` | `crates/paws_core/src/controller.rs:421-435` | two merges compose exactly when the profile agrees with the baseline on every key changed and then reverted |
| `SocketEvidence.JoinedIff` | `scripts/analyze-socket-evidence.py:194-213` | after the join a socket carries an id exactly when it goes to the probe target and that is the only id attested for its flow |
| `SocketEvidence.JoinIsConsistent` | `scripts/analyze-socket-evidence.py:194-213` | every joined id has the probe target and a flow, and one flow never carries two ids |
| `SocketEvidence.RetryJoined` | `scripts/analyze-socket-evidence.py:211-213` | a retry takes the one id of its flow, and keeps what it had where there is none |
| `SocketEvidence.BenchmarkIff` | `scripts/analyze-socket-evidence.py:287-294` | a retry counts for the benchmark exactly when one request carries its id and a socket to the probe target carries its id and flow |
| `SocketEvidence.NoteIsUnanimous` | `scripts/analyze-socket-evidence.py:131-142` | a flow keeps an id exactly when every header it saw carried that id |
| `SocketEvidence.ProbeIsTheConnectionsOwn` | `scripts/analyze-socket-evidence.py:48-82` | a connection never borrows an id from a parent connection or a later child span |
| `SocketEvidence.ClassIsTheFirstNamed` | `scripts/analyze-socket-evidence.py:48-82` | the class is that of the innermost span's first destination: the probe target exactly when that is the target |
| `SocketEvidence.UnnamedIsUnknown` | `scripts/analyze-socket-evidence.py:48-82` | without a destination in the innermost span the class is unknown |
| `SocketEvidence.IdIsTheLastOwn` | `scripts/analyze-socket-evidence.py:48-82` | the id is the last valid one in the connection's own stretch |
| `SocketEvidence.AbsorbKeepsFlow` | `scripts/analyze-socket-evidence.py:48-82` | whatever scopes a socket's rows carry, it never gets an id without a flow |
| `SocketEvidence.LastRowWins` | `scripts/analyze-socket-evidence.py:159-162` | each fact of a socket is that of its last row that carries it |
| `SocketEvidence.RetryCountsAddUp` | `scripts/analyze-socket-evidence.py:285-301` | the per-request retry counts add up to the benchmark's retries, with duplicate or invalid ids too |
| `SocketEvidence.TallyBalances` | `scripts/analyze-socket-evidence.py:337-345` | recovered plus failed despite retry equals the requests with a retry |
| `SocketEvidence.JoinPhase` | `scripts/analyze-socket-evidence.py:194-213` | the two dictionaries built in one pass, and every socket and retry rewritten in place exactly as the join says |
| `SocketEvidence.Account` | `scripts/analyze-socket-evidence.py:285-345` | the counters: benchmark plus unjoined retries are all retries, and both balances hold |

## Left out

- At most one UI process is alive at a time, and attempt ids are never reused: both are assumptions of
  `OwnershipWorld` (a second live UI process could retire an attempt the first one still owns).
- Journal and lease operations are atomic: an operation that committed but reported an I/O error is not
  modelled, nor is a damaged journal file.
- Clocks, delivery order, the native worker and which published frame reaches a lane are arbitrary
  inputs; the header write of a frame is one step.
- A reader of a lane that is overtaken by two publications during its slot reads, and several
  publishers on one lane at once: then only the checksum stands between it and a mixed frame.
- The region header's own checksum, notification sockets, file descriptors, file locks and ashmem.
- The unscoped start and stop paths without an attempt id, and the awaiting of a start's outcome.
- `network_protected`, error texts, logs, traffic, exit location and runtime revisions of the platform
  session; the telemetry and control parts of a frame.
- PlatformCore.CoreHandle.PersistState: a failing publication is not modelled; it changes the core exactly as a
  succeeding one, and the error its callers then return is left out. In `OwnershipWorld` a frame may fail
  to reach the lane, and a stop claim whose mark failed ends there.
- The heartbeat and backoff theorems are about runs of one core; `OwnershipRuns.LifeIsARun` makes every life
  in a history such a run, but does not name the clock of each of its actions.
- `delete_profile`, group selections made by hand and `set_mode` are not transactions of
  `ConfigTransactions`; edits by other callers while a transaction awaits its reload are excluded by
  the reload lock.
- The `Config*` mutations are arbitrary new documents; what each setting writes into the YAML is not
  modelled, nor is the order of keys in a merged mapping.
- `RuleCompiler` covers the route part only: outbound translation, DNS and inbounds are foreign, and a
  DNS flow or a clash-mode override is decided before the compiled rules. `ClashAgreement` takes a matcher
  to mean the same in both engines and what only Clash knows of a flow to be independent of the rest;
  Clash's logical rules, whose commas nest, are read by their first three fields.
- Trimming and upper-casing are those of ASCII.
- SHA-256 itself: the fingerprint theorems are about the hashed bytes.
- Regular expressions, JSON lines, times, byte counts and temporal candidates of the evidence script.
- `engine_policy.rs`, `runtime_snapshot.rs`, `logging.rs`, `diagnostics.rs` and `process_evidence.rs`:
  gates, sorts, bounded lists and statistics that would only add easy members.
