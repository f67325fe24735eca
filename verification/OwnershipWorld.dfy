/**
 The whole ownership protocol as a step relation.

 A world holds the shared store (journal, two leases, one pair of lanes per UI
 session) and every live process with its core and the point it reached inside
 the source method that holds its state mutex. Each action is one access to
 the shared store, so acquiring a lease and upgrading the journal are separate
 actions and every race between them is a run. Any process may crash anywhere.
 `retired`, `owners`, `fenced` and `issuerOf` record the past for the proofs.
 */
module OwnershipWorld {
  import opened Wrappers
  import opened OwnerJournal
  import opened PlatformState
  import opened SessionMoves

  datatype Role = Ui | Extension

  /** How a bind may proceed after reading the journal. */
  datatype BindPath =
    | BindRefused
    | BindFresh(owner: Owner)       // Pending: needs the issuer's lease held
    | BindHeld                      // already attached to this process, lease in hand
    | BindRelock                    // already attached to this process, lease lost
    | BindOver(owner: Owner)        // attached to another process: needs its lease released

  function BindDecide(c: Core, j: Journal, attempt: AttemptId, self: ProcessId): BindPath {
    if j.Missing? || j.owner.attempt != attempt then BindRefused
    else match (j.owner.phase, j.owner.extension)
      case (Pending, None) => BindFresh(j.owner)
      case (Attached, Some(q)) =>
        if q != self then BindOver(j.owner) else if c.extensionLease.None? then BindRelock else BindHeld
      case _ => BindRefused
  }

  /** Where a process stands inside the method that holds its state mutex. */
  datatype Pc =
    | Free
    | BeginChecked
    | BeginPicked(attempt: AttemptId)
    | BeginLeased(attempt: AttemptId)
    | BindSynced(attempt: AttemptId)
    | BindRead(attempt: AttemptId, path: BindPath)
    | BindVerified(attempt: AttemptId, path: BindPath)
    | BindLeased(attempt: AttemptId, path: BindPath)
    | BindOwned(attempt: AttemptId)
    | ClaimSynced(epoch: nat)
    | ClaimRead(epoch: nat, owner: Owner)
    | ClaimFencing(epoch: nat, owner: Owner)
    | ClaimLost(epoch: nat, attempt: AttemptId)
    | AckReady(attempt: AttemptId)
    | AckMatched(attempt: AttemptId)
    | FailReady(attempt: AttemptId, requireUnattached: bool)

  datatype Process = Process(role: Role, core: Core, region: ProcessId, pc: Pc)

  /** The two lanes of one UI session; its UI process is the only publisher of `ui`. */
  datatype Lanes = Lanes(ui: Option<Frame>, extension: Option<Frame>)

  /** One round of recover_platform_vpn_cleanup_after_confirmed_stop; it holds no mutex between steps. */
  datatype Task =
    | TaskSnapshot(process: ProcessId, attempt: AttemptId, localUnattached: bool)
    | TaskRead(process: ProcessId, attempt: AttemptId, localUnattached: bool, owner: Owner)
    | TaskProven(process: ProcessId, attempt: AttemptId, extension: Option<ProcessId>)
    | TaskDeleted(process: ProcessId, attempt: AttemptId)

  datatype World = World(
    journal: Journal, issuer: Lease, extension: Lease, lanes: map<ProcessId, Lanes>,
    procs: map<ProcessId, Process>, dead: set<ProcessId>, tasks: set<Task>,
    issuerOf: map<AttemptId, ProcessId>, retired: set<AttemptId>,
    owners: set<(AttemptId, ProcessId)>, fenced: set<AttemptId>)

  /** Clocks, the native worker, and which of the published frames reached the lane, if any. */
  datatype Input = Input(now: nat, wall: nat, native: Native, landed: nat)

  datatype Action =
    | Spawn(p: ProcessId, role: Role)
    | Crash(p: ProcessId)
    | Attach(p: ProcessId, region: ProcessId)
    | Local(p: ProcessId, move: Move, i: Input)
    | BeginStart(p: ProcessId, epoch: nat, i: Input)
    | BeginPick(p: ProcessId, attempt: AttemptId)
    | BeginLease(p: ProcessId)
    | BeginCreate(p: ProcessId, i: Input)
    | BindStart(p: ProcessId, attempt: AttemptId, i: Input)
    | BindReadJournal(p: ProcessId)
    | BindObserve(p: ProcessId)
    | BindAcquire(p: ProcessId)
    | BindSwap(p: ProcessId)
    | BindAnnounce(p: ProcessId, i: Input)
    | ClaimStart(p: ProcessId, epoch: nat, i: Input)
    | ClaimReadJournal(p: ProcessId)
    | ClaimPublish(p: ProcessId, i: Input)
    | ClaimFence(p: ProcessId)
    | ClaimReread(p: ProcessId)
    | AckStart(p: ProcessId, attempt: AttemptId, i: Input)
    | AckRead(p: ProcessId)
    | AckDelete(p: ProcessId, i: Input)
    | FailStart(p: ProcessId, attempt: AttemptId, requireUnattached: bool, i: Input)
    | FailFinish(p: ProcessId, i: Input)
    | RecoverStart(p: ProcessId, attempt: AttemptId, i: Input)
    | RecoverRead(task: Task)
    | RecoverObserve(task: Task)
    | RecoverDelete(task: Task)
    | RecoverFinish(task: Task, i: Input)
    | LoseOwner(p: ProcessId, i: Input)
    | ClaimAutoRecovery(p: ProcessId, hasProfile: bool, lifecycleActive: bool, i: Input)
    | AckDelivery(p: ProcessId, region: ProcessId, attempt: AttemptId, wall: nat)

  const INIT := World(Missing, Lease(None, None), Lease(None, None), map[], map[], {}, {}, map[], {}, {}, {})

  // ------------------------------------------------- one move of one process

  function PeerLane(w: World, pr: Process): Option<Frame> {
    if pr.region !in w.lanes then None
    else if pr.role.Ui? then w.lanes[pr.region].extension
    else w.lanes[pr.region].ui
  }

  function EnvOf(w: World, pr: Process, i: Input): Env {
    Env(pr.role.Ui?, PeerLane(w, pr), i.now, i.wall, i.native)
  }

  function Publish(w: World, pr: Process, frames: seq<Frame>, landed: nat): map<ProcessId, Lanes> {
    if landed >= |frames| || pr.region !in w.lanes then w.lanes
    else if pr.role.Ui? then w.lanes[pr.region := w.lanes[pr.region].(ui := Some(frames[landed]))]
    else w.lanes[pr.region := w.lanes[pr.region].(extension := Some(frames[landed]))]
  }

  /** Process p makes move m on its core, publishes, and continues at pc. */
  function Act(w: World, p: ProcessId, m: Move, i: Input, pc: Pc): World
    requires p in w.procs
  {
    var pr := w.procs[p];
    var e := Do(pr.core, EnvOf(w, pr, i), m);
    w.(procs := w.procs[p := pr.(core := e.core, pc := pc)],
       lanes := Publish(w, pr, e.published, i.landed),
       issuer := Unlock(w.issuer, p, pr.core.issuerLease, e.core.issuerLease),
       extension := Unlock(w.extension, p, pr.core.extensionLease, e.core.extensionLease))
  }

  function Goto(w: World, p: ProcessId, pc: Pc): World
    requires p in w.procs
  {
    w.(procs := w.procs[p := w.procs[p].(pc := pc)])
  }

  /** Remember what the journal says now. */
  function Record(w: World, j: Journal): World {
    w.(journal := j,
       retired := w.retired + (if w.journal.Present? && (j.Missing? || j.owner.attempt != w.journal.owner.attempt)
                               then {w.journal.owner.attempt} else {}),
       owners := w.owners + (if j.Present? && j.owner.extension.Some?
                             then {(j.owner.attempt, j.owner.extension.value)} else {}),
       fenced := w.fenced + (if j.Present? && j.owner.phase.Stopping? then {j.owner.attempt} else {}))
  }

  predicate At(w: World, p: ProcessId, role: Role) {
    p in w.procs && w.procs[p].role == role
  }

  predicate MutexFree(w: World, p: ProcessId, role: Role) {
    At(w, p, role) && w.procs[p].pc.Free?
  }

  // ------------------------------------------------------ processes and lanes

  function SpawnStep(w: World, p: ProcessId, role: Role): World {
    if p == NO_PROCESS || p in w.procs || p in w.dead || p in w.lanes
       || (role.Ui? && exists q :: q in w.procs && w.procs[q].role.Ui?)
    then w
    else
      w.(procs := w.procs[p := Process(role, INITIAL, if role.Ui? then p else NO_PROCESS, Free)],
         lanes := if role.Ui? then w.lanes[p := Lanes(None, None)] else w.lanes)
  }

  function CrashStep(w: World, p: ProcessId): World {
    if p !in w.procs then w
    else
      w.(procs := w.procs - {p}, dead := w.dead + {p},
         issuer := Drop(w.issuer, p), extension := Drop(w.extension, p),
         tasks := set t | t in w.tasks && t.process != p)
  }

  function AttachStep(w: World, p: ProcessId, region: ProcessId): World {
    if !MutexFree(w, p, Extension) || region !in w.lanes then w
    else
      var pr := w.procs[p];
      w.(procs := w.procs[p := pr.(core := AttachLane(pr.core), region := region)])
  }

  /** The moves that touch no shared store beyond reading the peer's lane and publishing. */
  predicate LocalMove(role: Role, m: Move) {
    match m
    case DoSync => true
    case DoRepublish => true
    case DoSetStarting(_, _) => true
    case DoSetFailed(_) => true
    case DoCancel(_) => true
    case DoRequestStop(_) => true
    case DoStopSession(_) => role.Extension?
    case DoStopFinish(_) => role.Extension?
    case DoStartCommit(_) => role.Extension?
    case DoStartExternal(_, _) => role.Extension?
    case DoTick(_, _) => role.Extension?
    case DoNativeExit(_) => role.Extension?
    case DoAdvanceIntent => role.Ui?
    case DoBeginOsStop(_, _) => role.Ui?
    case DoCompleteOsStop(_, _) => role.Ui?
    case DoFailOsStop(_, _) => role.Ui?
    case DoRearm => role.Ui?
    case _ => false
  }

  function LocalStep(w: World, p: ProcessId, m: Move, i: Input): World {
    if p !in w.procs || !w.procs[p].pc.Free? || !LocalMove(w.procs[p].role, m) then w
    else Act(w, p, m, i, Free)
  }

  // --------------------------------------------------------------- begin (UI)

  function BeginStartStep(w: World, p: ProcessId, epoch: nat, i: Input): World {
    if !MutexFree(w, p, Ui) then w
    else
      var pr := w.procs[p];
      var ok := BeginCheck(pr.core, EnvOf(w, pr, i), epoch).1;
      Act(w, p, DoBeginCheck(epoch), i, if ok then BeginChecked else Free)
  }

  function BeginPickStep(w: World, p: ProcessId, attempt: AttemptId): World {
    if !At(w, p, Ui) || !w.procs[p].pc.BeginChecked? then w
    else if w.journal.Present? || attempt == NO_ATTEMPT || attempt in w.issuerOf then Goto(w, p, Free)
    else Goto(w, p, BeginPicked(attempt))
  }

  function BeginLeaseStep(w: World, p: ProcessId): World {
    if !At(w, p, Ui) || !w.procs[p].pc.BeginPicked? then w
    else
      var a := w.procs[p].pc.attempt;
      var (lease, ok) := Acquire(w.issuer, LeaseRecord(a, p));
      if ok then Goto(w, p, BeginLeased(a)).(issuer := lease) else Goto(w, p, Free)
  }

  function BeginCreateStep(w: World, p: ProcessId, i: Input): World {
    if !At(w, p, Ui) || !w.procs[p].pc.BeginLeased? then w
    else
      var a := w.procs[p].pc.attempt;
      var (j, ok) := CreatePending(w.journal, a, p);
      if !ok then Goto(w, p, Free).(issuer := Drop(w.issuer, p))
      else Act(Record(w, j).(issuerOf := w.issuerOf[a := p]), p, DoBeginCommit(a), i, Free)
  }

  // --------------------------------------------------------- bind (Extension)

  function BindStartStep(w: World, p: ProcessId, attempt: AttemptId, i: Input): World {
    if !MutexFree(w, p, Extension) then w
    else
      var pr := w.procs[p];
      var ok := BindAdopt(pr.core, EnvOf(w, pr, i), attempt).1;
      Act(w, p, DoBindAdopt(attempt), i, if ok then BindSynced(attempt) else Free)
  }

  function BindReadStep(w: World, p: ProcessId): World {
    if !At(w, p, Extension) || !w.procs[p].pc.BindSynced? then w
    else
      var a := w.procs[p].pc.attempt;
      match BindDecide(w.procs[p].core, w.journal, a, p)
      case BindRefused => Goto(w, p, Free)
      case BindHeld => Goto(w, p, BindOwned(a))
      case BindRelock => Goto(w, p, BindVerified(a, BindRelock))
      case path => Goto(w, p, BindRead(a, path))
  }

  function BindObserveStep(w: World, p: ProcessId): World {
    if !At(w, p, Extension) || !w.procs[p].pc.BindRead? then w
    else
      var a, path := w.procs[p].pc.attempt, w.procs[p].pc.path;
      var ok :=
        match path
        case BindFresh(o) => Observe(w.issuer, LeaseRecord(a, o.issuer)).HeldExact?
        case BindOver(o) => o.extension.Some? && Observe(w.extension, LeaseRecord(a, o.extension.value)).Released?
        case _ => false;
      Goto(w, p, if ok then BindVerified(a, path) else Free)
  }

  function BindAcquireStep(w: World, p: ProcessId): World {
    if !At(w, p, Extension) || !w.procs[p].pc.BindVerified? then w
    else
      var a, path := w.procs[p].pc.attempt, w.procs[p].pc.path;
      var (lease, ok) := Acquire(w.extension, LeaseRecord(a, p));
      if ok then Goto(w, p, BindLeased(a, path)).(extension := lease) else Goto(w, p, Free)
  }

  /** The journal compare-and-swap of a bind; a failed one drops the fresh lease. */
  function BindSwapStep(w: World, p: ProcessId): World {
    if !At(w, p, Extension) || !w.procs[p].pc.BindLeased? then w
    else
      var a := w.procs[p].pc.attempt;
      var (j, ok) :=
        match w.procs[p].pc.path
        case BindFresh(o) => UpgradeAttached(w.journal, a, o.issuer, p)
        case BindOver(o) => RebindAttached(w.journal, a, o.issuer, o.extension.GetOr(NO_PROCESS), p)
        case BindRelock => (w.journal, true)
        case _ => (w.journal, false);
      if !ok then Goto(w, p, Free).(extension := Drop(w.extension, p))
      else
        var pr := w.procs[p];
        Record(w, j).(procs := w.procs[p := pr.(core := pr.core.(extensionLease := Some(a)), pc := BindOwned(a))])
  }

  function BindAnnounceStep(w: World, p: ProcessId, i: Input): World {
    if !At(w, p, Extension) || !w.procs[p].pc.BindOwned? then w
    else Act(w, p, DoBindPublish(w.procs[p].pc.attempt, p), i, Free)
  }

  // ---------------------------------------------------------- claim stop (UI)

  function ClaimStartStep(w: World, p: ProcessId, epoch: nat, i: Input): World {
    if !MutexFree(w, p, Ui) then w
    else
      var pr := w.procs[p];
      var ok := ClaimCheck(pr.core, EnvOf(w, pr, i), epoch).1;
      Act(w, p, DoClaimCheck(epoch), i, if ok then ClaimSynced(epoch) else Free)
  }

  const NO_INPUT := Input(0, 0, NativeStopped, 0)

  function ClaimReadStep(w: World, p: ProcessId): World {
    if !At(w, p, Ui) || !w.procs[p].pc.ClaimSynced? then w
    else
      var epoch := w.procs[p].pc.epoch;
      match ClaimDecide(w.procs[p].core, w.journal)
      case ClaimRefused => Goto(w, p, Free)
      case ClaimNothing => Goto(w, p, Free)
      case ClaimRetained(a) => Act(w, p, DoClaimCommit(epoch, a), NO_INPUT, Free)
      case ClaimCold(o) => Goto(w, p, ClaimFencing(epoch, o))
      case ClaimOwned(o) => Goto(w, p, ClaimRead(epoch, o))
  }

  /** The stop mark becomes visible before the fence; a failed publication aborts the claim. */
  function ClaimPublishStep(w: World, p: ProcessId, i: Input): World {
    if !At(w, p, Ui) || !w.procs[p].pc.ClaimRead? then w
    else
      var pc := w.procs[p].pc;
      Act(w, p, DoClaimMark, i, if i.landed == 0 then ClaimFencing(pc.epoch, pc.owner) else Free)
  }

  function ClaimFenceStep(w: World, p: ProcessId): World {
    if !At(w, p, Ui) || !w.procs[p].pc.ClaimFencing? then w
    else
      var epoch, o := w.procs[p].pc.epoch, w.procs[p].pc.owner;
      match (o.phase, o.extension)
      case (Stopping, None) => Act(w, p, DoClaimCommit(epoch, o.attempt), NO_INPUT, Free)
      case (Attached, Some(_)) => Act(w, p, DoClaimCommit(epoch, o.attempt), NO_INPUT, Free)
      case (Pending, None) =>
        var (j, result) := FencePendingStop(w.journal, o.attempt, o.issuer);
        if result.Fenced? then Act(Record(w, j), p, DoClaimCommit(epoch, o.attempt), NO_INPUT, Free)
        else if result.RaceLost? then Goto(w, p, ClaimLost(epoch, o.attempt))
        else Goto(w, p, Free)
      case _ => Goto(w, p, Free)
  }

  function ClaimRereadStep(w: World, p: ProcessId): World {
    if !At(w, p, Ui) || !w.procs[p].pc.ClaimLost? then w
    else
      var epoch, a := w.procs[p].pc.epoch, w.procs[p].pc.attempt;
      if ClaimStillOwned(w.journal, a) then Act(w, p, DoClaimCommit(epoch, a), NO_INPUT, Free)
      else Goto(w, p, Free)
  }

  // ----------------------------------------- cleanup acknowledgement (Extension)

  function AckStartStep(w: World, p: ProcessId, attempt: AttemptId, i: Input): World {
    if !MutexFree(w, p, Extension) then w
    else
      var pr := w.procs[p];
      var gate := CleanupCheck(pr.core, EnvOf(w, pr, i), attempt).1;
      Act(w, p, DoCleanupCheck(attempt), i, if gate.Proceed? then AckReady(attempt) else Free)
  }

  function AckReadStep(w: World, p: ProcessId): World {
    if !At(w, p, Extension) || !w.procs[p].pc.AckReady? then w
    else
      var a := w.procs[p].pc.attempt;
      Goto(w, p, if CleanupOwner(w.procs[p].core, w.journal, a, p) then AckMatched(a) else Free)
  }

  function AckDeleteStep(w: World, p: ProcessId, i: Input): World {
    if !At(w, p, Extension) || !w.procs[p].pc.AckMatched? then w
    else
      var (j, ok) := DeleteExact(w.journal, w.procs[p].pc.attempt, Some(p));
      if !ok then Goto(w, p, Free) else Act(Record(w, j), p, DoCleanupCommit, i, Free)
  }

  // ------------------------------------------------------------------ failing

  function FailStartStep(w: World, p: ProcessId, attempt: AttemptId, req: bool, i: Input): World {
    if p !in w.procs || !w.procs[p].pc.Free? || (req && !w.procs[p].role.Ui?) then w
    else
      var pr := w.procs[p];
      var ok := FailCheck(pr.core, EnvOf(w, pr, i), attempt, req).1;
      Act(w, p, DoFailCheck(attempt, req), i, if ok then FailReady(attempt, req) else Free)
  }

  function FailFinishStep(w: World, p: ProcessId, i: Input): World {
    if p !in w.procs || !w.procs[p].pc.FailReady? then w
    else if !w.procs[p].pc.requireUnattached then Act(w, p, DoFailCommit(false), i, Free)
    else
      var (j, ok) := DeletePendingExact(w.journal, w.procs[p].pc.attempt);
      if !ok then Goto(w, p, Free) else Act(Record(w, j), p, DoFailCommit(true), i, Free)
  }

  // ------------------------------------- recovery after a confirmed OS stop (UI)

  function Replace(w: World, t: Task, next: set<Task>): World {
    w.(tasks := w.tasks - {t} + next)
  }

  function RecoverStartStep(w: World, p: ProcessId, attempt: AttemptId, i: Input): World {
    if !MutexFree(w, p, Ui) || attempt == NO_ATTEMPT then w
    else
      var pr := w.procs[p];
      var (_, done, unattached) := RecoverySnapshot(pr.core, EnvOf(w, pr, i), attempt);
      var next := Act(w, p, DoRecoverySnapshot(attempt), i, Free);
      if done then next else next.(tasks := next.tasks + {TaskSnapshot(p, attempt, unattached)})
  }

  function RecoverReadStep(w: World, t: Task): World {
    if t !in w.tasks || !t.TaskSnapshot? then w
    else if w.journal.Missing? || w.journal.owner.attempt != t.attempt then Replace(w, t, {})
    else Replace(w, t, {TaskRead(t.process, t.attempt, t.localUnattached, w.journal.owner)})
  }

  /** The proof that the owner read from the journal is gone. */
  predicate OwnerGone(w: World, t: Task)
    requires t.TaskRead?
  {
    OwnerProof(t.owner, w.issuer, w.extension, t.localUnattached).Proven?
  }

  function RecoverObserveStep(w: World, t: Task): World {
    if t !in w.tasks || !t.TaskRead? then w
    else if OwnerGone(w, t) then Replace(w, t, {TaskProven(t.process, t.attempt, t.owner.extension)})
    else Replace(w, t, {})
  }

  function RecoverDeleteStep(w: World, t: Task): World {
    if t !in w.tasks || !t.TaskProven? then w
    else
      var (j, ok) := DeleteExact(w.journal, t.attempt, t.extension);
      if ok then Replace(Record(w, j), t, {TaskDeleted(t.process, t.attempt)}) else Replace(w, t, {})
  }

  function RecoverFinishStep(w: World, t: Task, i: Input): World {
    if t !in w.tasks || !t.TaskDeleted? || !MutexFree(w, t.process, Ui) then w
    else Act(Replace(w, t, {}), t.process, DoRecoveryCommit(t.attempt), i, Free)
  }

  // --------------------------------------------------- liveness and delivery

  /** The released lease is locked for the whole step, so no rebind can slip in. */
  function LoseOwnerStep(w: World, p: ProcessId, i: Input): World {
    if !MutexFree(w, p, Ui) || w.extension.holder.Some? then w
    else Act(w, p, DoOwnerLost(w.journal), i, Free)
  }

  function Orphan(w: World, lifecycleActive: bool): Option<AttemptId> {
    if lifecycleActive && w.journal.Present? && w.journal.owner.phase.Attached?
       && w.journal.owner.extension.Some?
       && Observe(w.extension, LeaseRecord(w.journal.owner.attempt, w.journal.owner.extension.value)).Released?
    then Some(w.journal.owner.attempt) else None
  }

  function ClaimAutoStep(w: World, p: ProcessId, hasProfile: bool, lifecycleActive: bool, i: Input): World {
    if !MutexFree(w, p, Ui) then w
    else Act(w, p, DoClaimRecovery(hasProfile, Orphan(w, lifecycleActive)), i, Free)
  }

  /** acknowledge_terminal_delivery_state on the frame found in the UI lane of `region`. */
  function AckDeliveryStep(w: World, p: ProcessId, region: ProcessId, attempt: AttemptId, wall: nat): World {
    if !At(w, p, Extension) || region !in w.lanes || w.lanes[region].ui.None? || attempt == NO_ATTEMPT then w
    else
      var f := w.lanes[region].ui.value;
      if !f.session.TerminalFor(attempt) then w
      else
        var answer := Frame(
          f.session.(delivery := true, attached := false, starting := false, running := false),
          if wall > f.updatedAt + 1 then wall else f.updatedAt + 1);
        w.(lanes := w.lanes[region := w.lanes[region].(extension := Some(answer))])
  }

  // ------------------------------------------------------------ the relation

  function Step(w: World, a: Action): World {
    match a
    case Spawn(p, role) => SpawnStep(w, p, role)
    case Crash(p) => CrashStep(w, p)
    case Attach(p, region) => AttachStep(w, p, region)
    case Local(p, m, i) => LocalStep(w, p, m, i)
    case BeginStart(p, epoch, i) => BeginStartStep(w, p, epoch, i)
    case BeginPick(p, attempt) => BeginPickStep(w, p, attempt)
    case BeginLease(p) => BeginLeaseStep(w, p)
    case BeginCreate(p, i) => BeginCreateStep(w, p, i)
    case BindStart(p, attempt, i) => BindStartStep(w, p, attempt, i)
    case BindReadJournal(p) => BindReadStep(w, p)
    case BindObserve(p) => BindObserveStep(w, p)
    case BindAcquire(p) => BindAcquireStep(w, p)
    case BindSwap(p) => BindSwapStep(w, p)
    case BindAnnounce(p, i) => BindAnnounceStep(w, p, i)
    case ClaimStart(p, epoch, i) => ClaimStartStep(w, p, epoch, i)
    case ClaimReadJournal(p) => ClaimReadStep(w, p)
    case ClaimPublish(p, i) => ClaimPublishStep(w, p, i)
    case ClaimFence(p) => ClaimFenceStep(w, p)
    case ClaimReread(p) => ClaimRereadStep(w, p)
    case AckStart(p, attempt, i) => AckStartStep(w, p, attempt, i)
    case AckRead(p) => AckReadStep(w, p)
    case AckDelete(p, i) => AckDeleteStep(w, p, i)
    case FailStart(p, attempt, req, i) => FailStartStep(w, p, attempt, req, i)
    case FailFinish(p, i) => FailFinishStep(w, p, i)
    case RecoverStart(p, attempt, i) => RecoverStartStep(w, p, attempt, i)
    case RecoverRead(t) => RecoverReadStep(w, t)
    case RecoverObserve(t) => RecoverObserveStep(w, t)
    case RecoverDelete(t) => RecoverDeleteStep(w, t)
    case RecoverFinish(t, i) => RecoverFinishStep(w, t, i)
    case LoseOwner(p, i) => LoseOwnerStep(w, p, i)
    case ClaimAutoRecovery(p, hasProfile, lifecycleActive, i) => ClaimAutoStep(w, p, hasProfile, lifecycleActive, i)
    case AckDelivery(p, region, attempt, wall) => AckDeliveryStep(w, p, region, attempt, wall)
  }

  ghost predicate IsHistory(ws: seq<World>, acts: seq<Action>) {
    && |ws| == |acts| + 1
    && ws[0] == INIT
    && forall k :: 0 <= k < |acts| ==> ws[k + 1] == Step(ws[k], acts[k])
  }
}
