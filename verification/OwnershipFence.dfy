/**
 The OS-stop fence in the whole system: from the dispatch of an OS stop to the
 call that completes or fails exactly that one, nothing anybody does opens it.
 */
module OwnershipFence {
  import opened Wrappers
  import opened OwnerJournal
  import opened PlatformState
  import opened SessionMoves
  import opened SessionTheorems
  import opened OwnershipWorld
  import opened OwnershipInvariant
  import opened OwnershipRaces
  import opened OwnershipTheorems
  import opened OwnershipRuns

  /** The fence of p is as before. */
  predicate FenceKept(w: World, v: World, p: ProcessId) {
    p in w.procs && p in v.procs ==> v.procs[p].core.fence == w.procs[p].core.fence
  }

  lemma ActKeepsFence(w: World, q: ProcessId, m: Move, i: Input, pc: Pc, p: ProcessId)
    requires q in w.procs && (q != p || !FenceMove(m))
    ensures FenceKept(w, Act(w, q, m, i, pc), p)
  {
    hide Do, EnvOf, FenceMove;
    if q == p {
      OtherMovesKeepFence(w.procs[p].core, EnvOf(w, w.procs[p], i), m);
    }
  }

  // --------------------------------------------------- claims, step by step

  /** A claim under way and a fence in flight exclude each other, so p's own claim steps are not due. */
  lemma NotClaiming(w: World, p: ProcessId)
    requires Inv(w, None) && p in w.procs && w.procs[p].core.fence.inFlight
    ensures !w.procs[p].pc.ClaimSynced? && !w.procs[p].pc.ClaimFencing? && !w.procs[p].pc.ClaimLost?
  {
    PcHolds(w, p);
  }

  lemma ClaimReadKeepsFence(w: World, q: ProcessId, p: ProcessId)
    requires Inv(w, None) && p in w.procs && w.procs[p].core.fence.inFlight
    ensures FenceKept(w, ClaimReadStep(w, q), p)
  {
    NotClaiming(w, p);
    hide Inv, Act, ClaimDecide;
    if q in w.procs && q != p && w.procs[q].pc.ClaimSynced? && ClaimDecide(w.procs[q].core, w.journal).ClaimRetained? {
      ActKeepsFence(w, q, DoClaimCommit(w.procs[q].pc.epoch, ClaimDecide(w.procs[q].core, w.journal).stale), NO_INPUT, Free, p);
    }
  }

  lemma ClaimFenceKeepsFence(w: World, q: ProcessId, p: ProcessId)
    requires Inv(w, None) && p in w.procs && w.procs[p].core.fence.inFlight
    ensures FenceKept(w, ClaimFenceStep(w, q), p)
  {
    NotClaiming(w, p);
    hide Inv, Act, FencePendingStop;
    if q in w.procs && q != p && w.procs[q].pc.ClaimFencing? {
      var o := w.procs[q].pc.owner;
      ActKeepsFence(w, q, DoClaimCommit(w.procs[q].pc.epoch, o.attempt), NO_INPUT, Free, p);
      ActKeepsFence(Record(w, FencePendingStop(w.journal, o.attempt, o.issuer).0), q,
                    DoClaimCommit(w.procs[q].pc.epoch, o.attempt), NO_INPUT, Free, p);
    }
  }

  lemma ClaimRereadKeepsFence(w: World, q: ProcessId, p: ProcessId)
    requires Inv(w, None) && p in w.procs && w.procs[p].core.fence.inFlight
    ensures FenceKept(w, ClaimRereadStep(w, q), p)
  {
    NotClaiming(w, p);
    hide Inv, Act;
    if q in w.procs && q != p && w.procs[q].pc.ClaimLost? {
      ActKeepsFence(w, q, DoClaimCommit(w.procs[q].pc.epoch, w.procs[q].pc.attempt), NO_INPUT, Free, p);
    }
  }

  // ------------------------------------------------------- all other actions

  /** The actions whose one move is not one of the fence. */
  lemma OpeningsKeepFence(w: World, q: ProcessId, epoch: nat, a: AttemptId, req: bool, i: Input, p: ProcessId)
    ensures FenceKept(w, BeginStartStep(w, q, epoch, i), p) && FenceKept(w, BindStartStep(w, q, a, i), p)
    ensures FenceKept(w, ClaimStartStep(w, q, epoch, i), p) && FenceKept(w, AckStartStep(w, q, a, i), p)
    ensures FenceKept(w, FailStartStep(w, q, a, req, i), p)
  {
    hide BeginCheck, BindAdopt, ClaimCheck, CleanupCheck, FailCheck, EnvOf, Act, FenceKept;
    if q in w.procs {
      forall pc ensures FenceKept(w, Act(w, q, DoBeginCheck(epoch), i, pc), p) {
        ActKeepsFence(w, q, DoBeginCheck(epoch), i, pc, p);
      }
      forall pc ensures FenceKept(w, Act(w, q, DoBindAdopt(a), i, pc), p) {
        ActKeepsFence(w, q, DoBindAdopt(a), i, pc, p);
      }
      forall pc ensures FenceKept(w, Act(w, q, DoClaimCheck(epoch), i, pc), p) {
        ActKeepsFence(w, q, DoClaimCheck(epoch), i, pc, p);
      }
      forall pc ensures FenceKept(w, Act(w, q, DoCleanupCheck(a), i, pc), p) {
        ActKeepsFence(w, q, DoCleanupCheck(a), i, pc, p);
      }
      forall pc ensures FenceKept(w, Act(w, q, DoFailCheck(a, req), i, pc), p) {
        ActKeepsFence(w, q, DoFailCheck(a, req), i, pc, p);
      }
    }
    SelfKeepsFence(w, p);
  }

  lemma SelfKeepsFence(w: World, p: ProcessId)
    ensures FenceKept(w, w, p)
  {
  }

  lemma LocalKeepsFence(w: World, q: ProcessId, m: Move, i: Input, p: ProcessId)
    requires q != p || !FenceMove(m)
    ensures FenceKept(w, LocalStep(w, q, m, i), p)
  {
    hide Act, LocalMove, FenceKept, FenceMove;
    SelfKeepsFence(w, p);
    if q in w.procs {
      ActKeepsFence(w, q, m, i, Free, p);
    }
  }

  lemma SinglesKeepFence(w: World, q: ProcessId, a: AttemptId, hasProfile: bool, active: bool, i: Input, p: ProcessId)
    ensures FenceKept(w, BindAnnounceStep(w, q, i), p) && FenceKept(w, LoseOwnerStep(w, q, i), p)
    ensures FenceKept(w, RecoverStartStep(w, q, a, i), p) && FenceKept(w, ClaimAutoStep(w, q, hasProfile, active, i), p)
  {
    hide RecoverySnapshot, EnvOf, Orphan, Act;
    if q in w.procs {
      if w.procs[q].pc.BindOwned? {
        ActKeepsFence(w, q, DoBindPublish(w.procs[q].pc.attempt, q), i, Free, p);
      }
      ActKeepsFence(w, q, DoRecoverySnapshot(a), i, Free, p);
      ActKeepsFence(w, q, DoClaimRecovery(hasProfile, Orphan(w, active)), i, Free, p);
      ActKeepsFence(w, q, DoOwnerLost(w.journal), i, Free, p);
    }
  }

  lemma CommitsKeepFence(w: World, q: ProcessId, i: Input, p: ProcessId)
    ensures FenceKept(w, BeginCreateStep(w, q, i), p) && FenceKept(w, AckDeleteStep(w, q, i), p)
  {
    hide Act, CreatePending, DeleteExact;
    if q in w.procs && w.procs[q].pc.BeginLeased? {
      var a := w.procs[q].pc.attempt;
      var r := Record(w, CreatePending(w.journal, a, q).0).(issuerOf := w.issuerOf[a := q]);
      ActKeepsFence(r, q, DoBeginCommit(a), i, Free, p);
    }
    if q in w.procs && w.procs[q].pc.AckMatched? {
      ActKeepsFence(Record(w, DeleteExact(w.journal, w.procs[q].pc.attempt, Some(q)).0), q, DoCleanupCommit, i, Free, p);
    }
  }

  lemma MarksKeepFence(w: World, q: ProcessId, i: Input, p: ProcessId)
    ensures FenceKept(w, ClaimPublishStep(w, q, i), p) && FenceKept(w, FailFinishStep(w, q, i), p)
  {
    hide Act, DeletePendingExact;
    if q in w.procs && w.procs[q].pc.ClaimRead? {
      var pc := w.procs[q].pc;
      ActKeepsFence(w, q, DoClaimMark, i, if i.landed == 0 then ClaimFencing(pc.epoch, pc.owner) else Free, p);
    }
    if q in w.procs && w.procs[q].pc.FailReady? {
      ActKeepsFence(w, q, DoFailCommit(false), i, Free, p);
      ActKeepsFence(Record(w, DeletePendingExact(w.journal, w.procs[q].pc.attempt).0), q, DoFailCommit(true), i, Free, p);
    }
  }

  lemma TaskKeepsFence(w: World, t: Task, i: Input, p: ProcessId)
    ensures FenceKept(w, RecoverFinishStep(w, t, i), p)
  {
    hide Act;
    if t.process in w.procs && t.TaskDeleted? {
      ActKeepsFence(Replace(w, t, {}), t.process, DoRecoveryCommit(t.attempt), i, Free, p);
    }
  }

  /** The actions that change no core, or only its lease or its peer. */
  lemma QuietActionsKeepFence(w: World, q: ProcessId, role: Role, a: AttemptId, region: ProcessId, wall: nat, p: ProcessId)
    requires p in w.procs
    ensures FenceKept(w, SpawnStep(w, q, role), p) && FenceKept(w, CrashStep(w, q), p)
    ensures FenceKept(w, AttachStep(w, q, region), p)
    ensures FenceKept(w, BeginPickStep(w, q, a), p) && FenceKept(w, BeginLeaseStep(w, q), p)
    ensures FenceKept(w, BindReadStep(w, q), p) && FenceKept(w, BindObserveStep(w, q), p)
    ensures FenceKept(w, BindAcquireStep(w, q), p) && FenceKept(w, BindSwapStep(w, q), p)
    ensures FenceKept(w, AckReadStep(w, q), p) && FenceKept(w, AckDeliveryStep(w, q, region, a, wall), p)
  {
    hide BindDecide, Observe, CleanupOwner, Acquire, UpgradeAttached, RebindAttached;
  }

  lemma QuietTasksKeepFence(w: World, t: Task, p: ProcessId)
    ensures FenceKept(w, RecoverReadStep(w, t), p) && FenceKept(w, RecoverObserveStep(w, t), p)
    ensures FenceKept(w, RecoverDeleteStep(w, t), p)
  {
    hide OwnerGone, DeleteExact;
  }

  /** The actions that move no core but by a lease or a new peer. */
  predicate QuietAction(act: Action) {
    act.Spawn? || act.Crash? || act.Attach? || act.BeginPick? || act.BeginLease? ||
    act.BindReadJournal? || act.BindObserve? || act.BindAcquire? || act.BindSwap? || act.AckRead? ||
    act.RecoverRead? || act.RecoverObserve? || act.RecoverDelete? || act.AckDelivery?
  }

  lemma QuietStepKeepsFence(w: World, act: Action, p: ProcessId)
    requires QuietAction(act)
    requires p in w.procs
    ensures FenceKept(w, Step(w, act), p)
  {
    hide Inv, FenceKept, FenceMove, SpawnStep, CrashStep, AttachStep, LocalStep, BeginStartStep, BeginPickStep, BeginLeaseStep,
      BeginCreateStep, BindStartStep, BindReadStep, BindObserveStep, BindAcquireStep, BindSwapStep, BindAnnounceStep,
      ClaimStartStep, ClaimReadStep, ClaimPublishStep, ClaimFenceStep, ClaimRereadStep, AckStartStep, AckReadStep, AckDeleteStep,
      FailStartStep, FailFinishStep, RecoverStartStep, RecoverReadStep, RecoverObserveStep, RecoverDeleteStep,
      RecoverFinishStep, LoseOwnerStep, ClaimAutoStep, AckDeliveryStep;
    match act
    case Spawn(q, role) => QuietActionsKeepFence(w, q, role, 0, 0, 0, p);
    case Crash(q) => QuietActionsKeepFence(w, q, Ui, 0, 0, 0, p);
    case Attach(q, region) => QuietActionsKeepFence(w, q, Ui, 0, region, 0, p);
    case BeginPick(q, a) => QuietActionsKeepFence(w, q, Ui, a, 0, 0, p);
    case BeginLease(q) => QuietActionsKeepFence(w, q, Ui, 0, 0, 0, p);
    case BindReadJournal(q) => QuietActionsKeepFence(w, q, Ui, 0, 0, 0, p);
    case BindObserve(q) => QuietActionsKeepFence(w, q, Ui, 0, 0, 0, p);
    case BindAcquire(q) => QuietActionsKeepFence(w, q, Ui, 0, 0, 0, p);
    case BindSwap(q) => QuietActionsKeepFence(w, q, Ui, 0, 0, 0, p);
    case AckRead(q) => QuietActionsKeepFence(w, q, Ui, 0, 0, 0, p);
    case RecoverRead(t) => QuietTasksKeepFence(w, t, p);
    case RecoverObserve(t) => QuietTasksKeepFence(w, t, p);
    case RecoverDelete(t) => QuietTasksKeepFence(w, t, p);
    case AckDelivery(q, region, a, wall) => QuietActionsKeepFence(w, q, Ui, a, region, wall, p);
  }

  /** The actions of one move that reads the lane. */
  predicate OpeningAction(act: Action) {
    act.Local? || act.BeginStart? || act.BindStart? || act.BindAnnounce? || act.ClaimStart? ||
    act.AckStart? || act.FailStart? || act.RecoverStart? || act.LoseOwner? ||
    act.ClaimAutoRecovery?
  }

  lemma OpeningStepKeepsFence(w: World, act: Action, p: ProcessId)
    requires OpeningAction(act)
    requires !(act.Local? && act.p == p && FenceMove(act.move))
    ensures FenceKept(w, Step(w, act), p)
  {
    hide Inv, FenceKept, FenceMove, SpawnStep, CrashStep, AttachStep, LocalStep, BeginStartStep, BeginPickStep, BeginLeaseStep,
      BeginCreateStep, BindStartStep, BindReadStep, BindObserveStep, BindAcquireStep, BindSwapStep, BindAnnounceStep,
      ClaimStartStep, ClaimReadStep, ClaimPublishStep, ClaimFenceStep, ClaimRereadStep, AckStartStep, AckReadStep, AckDeleteStep,
      FailStartStep, FailFinishStep, RecoverStartStep, RecoverReadStep, RecoverObserveStep, RecoverDeleteStep,
      RecoverFinishStep, LoseOwnerStep, ClaimAutoStep, AckDeliveryStep;
    match act
    case Local(q, m, i) => LocalKeepsFence(w, q, m, i, p);
    case BeginStart(q, epoch, i) => OpeningsKeepFence(w, q, epoch, 0, false, i, p);
    case BindStart(q, a, i) => OpeningsKeepFence(w, q, 0, a, false, i, p);
    case BindAnnounce(q, i) => SinglesKeepFence(w, q, 0, false, false, i, p);
    case ClaimStart(q, epoch, i) => OpeningsKeepFence(w, q, epoch, 0, false, i, p);
    case AckStart(q, a, i) => OpeningsKeepFence(w, q, 0, a, false, i, p);
    case FailStart(q, a, req, i) => OpeningsKeepFence(w, q, 0, a, req, i, p);
    case RecoverStart(q, a, i) => SinglesKeepFence(w, q, a, false, false, i, p);
    case LoseOwner(q, i) => SinglesKeepFence(w, q, 0, false, false, i, p);
    case ClaimAutoRecovery(q, hasProfile, active, i) => SinglesKeepFence(w, q, 0, hasProfile, active, i, p);
  }

  lemma OwningStepKeepsFence(w: World, act: Action, p: ProcessId)
    requires !QuietAction(act) && !OpeningAction(act)
    requires Inv(w, None) && p in w.procs && w.procs[p].core.fence.inFlight
    ensures FenceKept(w, Step(w, act), p)
  {
    hide Inv, FenceKept, FenceMove, SpawnStep, CrashStep, AttachStep, LocalStep, BeginStartStep, BeginPickStep, BeginLeaseStep,
      BeginCreateStep, BindStartStep, BindReadStep, BindObserveStep, BindAcquireStep, BindSwapStep, BindAnnounceStep,
      ClaimStartStep, ClaimReadStep, ClaimPublishStep, ClaimFenceStep, ClaimRereadStep, AckStartStep, AckReadStep, AckDeleteStep,
      FailStartStep, FailFinishStep, RecoverStartStep, RecoverReadStep, RecoverObserveStep, RecoverDeleteStep,
      RecoverFinishStep, LoseOwnerStep, ClaimAutoStep, AckDeliveryStep;
    match act
    case BeginCreate(q, i) => CommitsKeepFence(w, q, i, p);
    case ClaimReadJournal(q) => ClaimReadKeepsFence(w, q, p);
    case ClaimPublish(q, i) => MarksKeepFence(w, q, i, p);
    case ClaimFence(q) => ClaimFenceKeepsFence(w, q, p);
    case ClaimReread(q) => ClaimRereadKeepsFence(w, q, p);
    case AckDelete(q, i) => CommitsKeepFence(w, q, i, p);
    case FailFinish(q, i) => MarksKeepFence(w, q, i, p);
    case RecoverFinish(t, i) => TaskKeepsFence(w, t, i, p);
  }

  /** Only p's own calls on its intent and its fence move a fence that is in flight. */
  lemma OnlyFenceCallsMoveIt(w: World, act: Action, p: ProcessId)
    requires Inv(w, None) && p in w.procs && w.procs[p].core.fence.inFlight
    requires !(act.Local? && act.p == p && FenceMove(act.move))
    ensures FenceKept(w, Step(w, act), p)
  {
    hide Inv, Step, FenceKept, FenceMove;
    if QuietAction(act) {
      QuietStepKeepsFence(w, act, p);
    } else if OpeningAction(act) {
      OpeningStepKeepsFence(w, act, p);
    } else {
      OwningStepKeepsFence(w, act, p);
    }
  }

  // ------------------------------------------------------------- the theorem

  /** The call that completes or fails exactly this OS stop. */
  predicate ResolvesStop(act: Action, p: ProcessId, epoch: nat, a: AttemptId) {
    act.Local? && act.p == p && Resolves(act.move, epoch, a)
  }

  lemma FenceCallsKeepFlight(w: World, p: ProcessId, m: Move, i: Input, epoch: nat, a: AttemptId)
    requires At(w, p, Ui) && InFlight(w.procs[p].core, epoch, a) && FenceMove(m) && !Resolves(m, epoch, a)
    ensures InFlight(LocalStep(w, p, m, i).procs[p].core, epoch, a)
  {
    hide EnvOf;
  }

  lemma FlightGoesOn(w: World, act: Action, p: ProcessId, epoch: nat, a: AttemptId)
    requires Inv(w, None) && At(w, p, Ui) && InFlight(w.procs[p].core, epoch, a)
    requires p in Step(w, act).procs && !ResolvesStop(act, p, epoch, a)
    ensures InFlight(Step(w, act).procs[p].core, epoch, a)
  {
    hide Inv, FenceMove, Resolves, LocalStep;
    if act.Local? && act.p == p && FenceMove(act.move) {
      FenceCallsKeepFlight(w, p, act.move, act.i, epoch, a);
    } else {
      hide Step;
      OnlyFenceCallsMoveIt(w, act, p);
    }
  }

  lemma OnlyUi(w: World, p: ProcessId, q: ProcessId)
    requires Inv(w, None) && At(w, p, Ui) && At(w, q, Ui)
    ensures p == q
  {
  }

  /** No attempt is issued: the UI process cannot be about to create one. */
  lemma NothingIssued(w: World, act: Action, p: ProcessId, epoch: nat, a: AttemptId)
    requires Inv(w, None) && At(w, p, Ui) && InFlight(w.procs[p].core, epoch, a)
    ensures Step(w, act).issuerOf == w.issuerOf
  {
    if act.BeginCreate? {
      PcHolds(w, p);
      if At(w, act.p, Ui) {
        OnlyUi(w, p, act.p);
      }
    }
    hide Inv, Step;
    StepRemembers(w, act);
  }

  /** An OS stop is dispatched by action k. */
  predicate Dispatches(w: World, act: Action, p: ProcessId, epoch: nat, a: AttemptId) {
    && act.Local? && act.p == p && act.move == DoBeginOsStop(epoch, a)
    && MutexFree(w, p, Ui) && BeginOsStop(w.procs[p].core, epoch, a).1
  }

  lemma DispatchInFlight(w: World, act: Action, p: ProcessId, epoch: nat, a: AttemptId)
    requires Dispatches(w, act, p, epoch, a)
    ensures p in Step(w, act).procs && InFlight(Step(w, act).procs[p].core, epoch, a) && Step(w, act).issuerOf == w.issuerOf
  {
    hide EnvOf;
  }

  /**
   In the whole system: from a successful dispatch until the UI process reports
   exactly that stop as completed or failed, its fence stays in flight, every gate
   stays shut and no attempt is issued by anybody, whatever Extensions send,
   however clocks run and whoever else crashes.
   */
  lemma {:induction false} OsStopHoldsEverything(
    ws: seq<World>, acts: seq<Action>, p: ProcessId, i: nat, j: nat, epoch: nat, a: AttemptId
  )
    requires IsHistory(ws, acts) && i < j < |ws| && p in ws[j].procs
    requires Dispatches(ws[i], acts[i], p, epoch, a)
    requires forall k :: i < k < j ==> !ResolvesStop(acts[k], p, epoch, a)
    ensures At(ws[j], p, Ui) && InFlight(ws[j].procs[p].core, epoch, a)
    ensures forall env: Env, any: nat ::
              !BeginCheck(ws[j].procs[p].core, env, any).1 && !ClaimCheck(ws[j].procs[p].core, env, any).1
    ensures forall any: nat, other: AttemptId :: !BeginOsStop(ws[j].procs[p].core, any, other).1
    ensures ws[j].issuerOf == ws[i].issuerOf
    decreases j
  {
    hide Inv, Step, InFlight, BeginCheck, ClaimCheck, BeginOsStop, Resolves, Dispatches;
    InRoom(ws[i], acts[i], p, epoch, a);
    AliveBetween(ws, acts, p, i, j, j);
    AliveBetween(ws, acts, p, i, j - 1, j);
    if j == i + 1 {
      DispatchInFlight(ws[i], acts[i], p, epoch, a);
    } else {
      OsStopHoldsEverything(ws, acts, p, i, j - 1, epoch, a);
      ReachableInv(ws, acts, j - 1);
      FlightGoesOn(ws[j - 1], acts[j - 1], p, epoch, a);
      NothingIssued(ws[j - 1], acts[j - 1], p, epoch, a);
    }
    var c := ws[j].procs[p].core;
    forall env: Env, any: nat ensures !BeginCheck(c, env, any).1 && !ClaimCheck(c, env, any).1 {
      InFlightShutsEveryGate(c, env, epoch, a, any, NO_ATTEMPT);
    }
    forall any: nat, other: AttemptId ensures !BeginOsStop(c, any, other).1 {
      InFlightShutsEveryGate(c, Env(true, None, 0, 0, NativeStopped), epoch, a, any, other);
    }
  }

  lemma InRoom(w: World, act: Action, p: ProcessId, epoch: nat, a: AttemptId)
    requires Dispatches(w, act, p, epoch, a)
    ensures At(w, p, Ui)
  {
  }
}
