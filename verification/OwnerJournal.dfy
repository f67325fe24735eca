/**
 The durable owner journal and the two ownership leases of platform_owner.rs.

 Every public function of that file runs under one exclusive file lock (the
 journal) or one non-blocking flock (a lease), so each is a single
 compare-and-swap here. Attempt ids and process identities are natural numbers;
 zero stands for the empty attempt id and for the absent process.
 */
module OwnerJournal {
  import opened Wrappers

  type AttemptId = nat
  type ProcessId = nat

  const NO_ATTEMPT: AttemptId := 0
  const NO_PROCESS: ProcessId := 0

  datatype Phase = Pending | Attached | Stopping

  datatype Owner = Owner(attempt: AttemptId, issuer: ProcessId, extension: Option<ProcessId>, phase: Phase)
  {
    /** The three shapes the source accepts on disk. */
    predicate Valid() {
      && attempt != NO_ATTEMPT
      && issuer != NO_PROCESS
      && extension != Some(NO_PROCESS)
      && (phase.Attached? <==> extension.Some?)
    }
  }

  datatype Journal = Missing | Present(owner: Owner)
  {
    predicate Valid() {
      Present? ==> owner.Valid()
    }

    /** The journal says that exactly process `p` owns attempt `a`. */
    predicate AttachedTo(a: AttemptId, p: ProcessId) {
      Present? && owner.attempt == a && owner.phase.Attached? && owner.extension == Some(p)
    }
  }

  datatype Fence = Fenced | RaceLost | Conflict

  function CreatePending(j: Journal, attempt: AttemptId, issuer: ProcessId): (Journal, bool) {
    var record := Owner(attempt, issuer, None, Phase.Pending);
    if !record.Valid() then (j, false)
    else if j.Missing? then (Present(record), true)
    else (j, j.owner == record)
  }

  function UpgradeAttached(j: Journal, attempt: AttemptId, issuer: ProcessId, extension: ProcessId): (Journal, bool) {
    if attempt == NO_ATTEMPT || issuer == NO_PROCESS || extension == NO_PROCESS then (j, false)
    else if j.Missing? || j.owner.attempt != attempt || j.owner.issuer != issuer then (j, false)
    else if j.owner.phase.Pending? && j.owner.extension.None? then
      (Present(j.owner.(phase := Phase.Attached, extension := Some(extension))), true)
    else (j, j.owner.phase.Attached? && j.owner.extension == Some(extension))
  }

  function FencePendingStop(j: Journal, attempt: AttemptId, issuer: ProcessId): (Journal, Fence) {
    if attempt == NO_ATTEMPT || issuer == NO_PROCESS then (j, Conflict)
    else if j.Missing? || j.owner.attempt != attempt || j.owner.issuer != issuer then (j, RaceLost)
    else match (j.owner.phase, j.owner.extension)
      case (Pending, None) => (Present(j.owner.(phase := Phase.Stopping)), Fenced)
      case (Stopping, None) => (j, Fenced)
      case (Attached, Some(_)) => (j, RaceLost)
      case _ => (j, Conflict)
  }

  function RebindAttached(
    j: Journal, attempt: AttemptId, issuer: ProcessId, expected: ProcessId, replacement: ProcessId
  ): (Journal, bool) {
    if attempt == NO_ATTEMPT || issuer == NO_PROCESS || expected == NO_PROCESS || replacement == NO_PROCESS then
      (j, false)
    else if j.Missing? || j.owner.attempt != attempt || j.owner.issuer != issuer || !j.owner.phase.Attached? then
      (j, false)
    else if j.owner.extension == Some(expected) then
      (Present(j.owner.(extension := Some(replacement))), true)
    else (j, j.owner.extension == Some(replacement))
  }

  /** `extension` is an exact expectation: None never matches an attached owner. */
  function DeleteExact(j: Journal, attempt: AttemptId, extension: Option<ProcessId>): (Journal, bool) {
    if attempt == NO_ATTEMPT || extension == Some(NO_PROCESS) then (j, false)
    else if j.Missing? || j.owner.attempt != attempt || j.owner.extension != extension then (j, false)
    else (Missing, true)
  }

  function DeletePendingExact(j: Journal, attempt: AttemptId): (Journal, bool) {
    if attempt == NO_ATTEMPT || j.Missing? || j.owner.attempt != attempt
       || !j.owner.phase.Pending? || j.owner.extension.Some?
    then (j, false)
    else (Missing, true)
  }

  // ---------------------------------------------------------------- leases

  datatype LeaseRecord = LeaseRecord(attempt: AttemptId, holder: ProcessId)

  /** One fixed inode: who holds its flock now, and the last record written into it. */
  datatype Lease = Lease(holder: Option<ProcessId>, record: Option<LeaseRecord>)

  datatype Observation = HeldExact | HeldOther | Released

  function Observe(l: Lease, expected: LeaseRecord): Observation {
    if l.holder.None? then Released
    else if l.record == Some(expected) then HeldExact
    else HeldOther
  }

  datatype Proof = Proven | OwnerAlive | OwnerUnknown | BadPhase

  function ProofOf(o: Observation): Proof {
    match o
    case Released => Proven
    case HeldExact => OwnerAlive
    case HeldOther => OwnerUnknown
  }

  /** Why the owner read from the journal is gone, if it is; `unattached` is the local knowledge that nobody adopted it. */
  function OwnerProof(o: Owner, issuer: Lease, extension: Lease, unattached: bool): Proof {
    match (o.phase, o.extension)
    case (Stopping, None) => Proven
    case (Pending, None) => if unattached then Proven else ProofOf(Observe(issuer, LeaseRecord(o.attempt, o.issuer)))
    case (Attached, Some(q)) => ProofOf(Observe(extension, LeaseRecord(o.attempt, q)))
    case _ => BadPhase
  }

  /** A second descriptor conflicts even inside the holding process. */
  function Acquire(l: Lease, r: LeaseRecord): (Lease, bool) {
    if r.attempt == NO_ATTEMPT || r.holder == NO_PROCESS || l.holder.Some? then (l, false)
    else (Lease(Some(r.holder), Some(r)), true)
  }

  /** Dropping the descriptor, or dying, frees the lock and leaves the record. */
  function Drop(l: Lease, p: ProcessId): Lease {
    if l.holder == Some(p) then l.(holder := None) else l
  }

  /** A lease that the core no longer keeps is unlocked. */
  function Unlock(l: Lease, p: ProcessId, before: Option<AttemptId>, after: Option<AttemptId>): Lease {
    if before.Some? && after.None? then Drop(l, p) else l
  }
}
