/**
 What the system lets happen: a start after the acknowledgement, and Connected
 after the Extension's commit. The safety theorems say what never happens; these
 say that the guards open again.
 */
module OwnershipLiveness {
  import opened Wrappers
  import opened OwnerJournal
  import opened PlatformState
  import opened PlatformRuns
  import opened PlatformLaws
  import opened SessionMoves
  import opened OwnershipWorld
  import opened OwnershipInvariant
  import opened OwnershipRaces
  import opened OwnershipTheorems
  import opened OwnershipRuns
  import opened OwnershipFence
  import opened OwnershipMethods

  // ------------------------------------------------------- the issuer's lease

  /** Whoever holds the issuer lease knows it: it is alive and its core or its start says so. */
  predicate IssuerKnown(w: World) {
    w.issuer.holder.Some? ==>
      && w.issuer.holder.value in w.procs
      && var pr := w.procs[w.issuer.holder.value];
         pr.role.Ui? && (pr.core.issuerLease.Some? || pr.pc.BeginLeased?)
  }

  lemma CommitTakesLease(c: Core, env: Env, a: AttemptId)
    ensures Do(c, env, DoBeginCommit(a)).core.issuerLease == Some(a)
  {
  }

  lemma ActKeepsIssuer(w: World, q: ProcessId, m: Move, i: Input, pc: Pc)
    requires IssuerKnown(w) && q in w.procs && (w.procs[q].pc.BeginLeased? ==> m.DoBeginCommit?)
    ensures IssuerKnown(Act(w, q, m, i, pc))
  {
    if m.DoBeginCommit? {
      CommitTakesLease(w.procs[q].core, EnvOf(w, w.procs[q], i), m.attempt);
    }
    hide Do, EnvOf;
  }

  /** The claims' steps, which commit without an input. */
  lemma ClaimsKeepIssuer(w: World, q: ProcessId, i: Input)
    requires IssuerKnown(w)
    ensures IssuerKnown(ClaimReadStep(w, q)) && IssuerKnown(ClaimFenceStep(w, q)) && IssuerKnown(ClaimRereadStep(w, q))
    ensures IssuerKnown(ClaimPublishStep(w, q, i))
  {
    hide Act, FencePendingStop, ClaimDecide, ClaimStillOwned;
    if q in w.procs {
      var pc := w.procs[q].pc;
      if pc.ClaimSynced? && ClaimDecide(w.procs[q].core, w.journal).ClaimRetained? {
        ActKeepsIssuer(w, q, DoClaimCommit(pc.epoch, ClaimDecide(w.procs[q].core, w.journal).stale), NO_INPUT, Free);
      }
      if pc.ClaimFencing? {
        var o := pc.owner;
        ActKeepsIssuer(w, q, DoClaimCommit(pc.epoch, o.attempt), NO_INPUT, Free);
        ActKeepsIssuer(Record(w, FencePendingStop(w.journal, o.attempt, o.issuer).0), q, DoClaimCommit(pc.epoch, o.attempt),
            NO_INPUT, Free);
      }
      if pc.ClaimLost? {
        ActKeepsIssuer(w, q, DoClaimCommit(pc.epoch, pc.attempt), NO_INPUT, Free);
      }
      if pc.ClaimRead? {
        ActKeepsIssuer(w, q, DoClaimMark, i, if i.landed == 0 then ClaimFencing(pc.epoch, pc.owner) else Free);
      }
    }
  }

  lemma OpeningsKeepIssuer(w: World, q: ProcessId, epoch: nat, a: AttemptId, req: bool, i: Input)
    requires IssuerKnown(w)
    ensures IssuerKnown(BeginStartStep(w, q, epoch, i)) && IssuerKnown(BindStartStep(w, q, a, i))
    ensures IssuerKnown(ClaimStartStep(w, q, epoch, i)) && IssuerKnown(AckStartStep(w, q, a, i))
    ensures IssuerKnown(FailStartStep(w, q, a, req, i))
  {
    hide BeginCheck, BindAdopt, ClaimCheck, CleanupCheck, FailCheck, EnvOf, Act, IssuerKnown;
    if q in w.procs && w.procs[q].pc.Free? {
      forall m, pc ensures IssuerKnown(Act(w, q, m, i, pc)) {
        ActKeepsIssuer(w, q, m, i, pc);
      }
    }
  }

  lemma SinglesKeepIssuer(w: World, q: ProcessId, m: Move, a: AttemptId, hasProfile: bool, active: bool, i: Input)
    requires IssuerKnown(w)
    ensures IssuerKnown(LocalStep(w, q, m, i)) && IssuerKnown(BindAnnounceStep(w, q, i)) && IssuerKnown(LoseOwnerStep(w, q, i))
    ensures IssuerKnown(ClaimAutoStep(w, q, hasProfile, active, i)) && IssuerKnown(RecoverStartStep(w, q, a, i))
  {
    hide RecoverySnapshot, EnvOf, Orphan, Act, LocalMove;
    if q in w.procs && (w.procs[q].pc.Free? || w.procs[q].pc.BindOwned?) {
      ActKeepsIssuer(w, q, m, i, Free);
      ActKeepsIssuer(w, q, DoClaimRecovery(hasProfile, Orphan(w, active)), i, Free);
      ActKeepsIssuer(w, q, DoOwnerLost(w.journal), i, Free);
      ActKeepsIssuer(w, q, DoRecoverySnapshot(a), i, Free);
      if w.procs[q].pc.BindOwned? {
        ActKeepsIssuer(w, q, DoBindPublish(w.procs[q].pc.attempt, q), i, Free);
      }
    }
  }

  lemma CommitsKeepIssuer(w: World, q: ProcessId, i: Input)
    requires IssuerKnown(w)
    ensures IssuerKnown(AckDeleteStep(w, q, i)) && IssuerKnown(FailFinishStep(w, q, i))
  {
    hide Act, DeleteExact, DeletePendingExact;
    if q in w.procs && w.procs[q].pc.AckMatched? {
      ActKeepsIssuer(Record(w, DeleteExact(w.journal, w.procs[q].pc.attempt, Some(q)).0), q, DoCleanupCommit, i, Free);
    }
    if q in w.procs && w.procs[q].pc.FailReady? {
      ActKeepsIssuer(w, q, DoFailCommit(false), i, Free);
      ActKeepsIssuer(Record(w, DeletePendingExact(w.journal, w.procs[q].pc.attempt).0), q, DoFailCommit(true), i, Free);
    }
  }

  lemma CreateKeepsIssuer(w: World, q: ProcessId, i: Input)
    requires IssuerKnown(w)
    ensures IssuerKnown(BeginCreateStep(w, q, i))
  {
    hide Act, CreatePending;
    if At(w, q, Ui) && w.procs[q].pc.BeginLeased? {
      var a := w.procs[q].pc.attempt;
      var r := Record(w, CreatePending(w.journal, a, q).0).(issuerOf := w.issuerOf[a := q]);
      ActKeepsIssuer(r, q, DoBeginCommit(a), i, Free);
    }
  }

  lemma TasksKeepIssuer(w: World, t: Task, i: Input)
    requires IssuerKnown(w)
    ensures IssuerKnown(RecoverFinishStep(w, t, i)) && IssuerKnown(RecoverReadStep(w, t)) && IssuerKnown(RecoverObserveStep(w, t))
    ensures IssuerKnown(RecoverDeleteStep(w, t))
  {
    hide Act, OwnerGone, DeleteExact;
    if t.process in w.procs && t.TaskDeleted? && w.procs[t.process].pc.Free? {
      ActKeepsIssuer(Replace(w, t, {}), t.process, DoRecoveryCommit(t.attempt), i, Free);
    }
  }

  lemma QuietKeepsIssuer(w: World, q: ProcessId, role: Role, a: AttemptId, region: ProcessId, wall: nat)
    requires IssuerKnown(w)
    ensures IssuerKnown(SpawnStep(w, q, role)) && IssuerKnown(CrashStep(w, q)) && IssuerKnown(AttachStep(w, q, region))
    ensures IssuerKnown(AckReadStep(w, q)) && IssuerKnown(AckDeliveryStep(w, q, region, a, wall))
  {
    hide CleanupOwner;
  }

  lemma TakingKeepsIssuer(w: World, q: ProcessId, a: AttemptId)
    requires IssuerKnown(w)
    ensures IssuerKnown(BeginPickStep(w, q, a)) && IssuerKnown(BeginLeaseStep(w, q)) && IssuerKnown(BindReadStep(w, q))
    ensures IssuerKnown(BindObserveStep(w, q)) && IssuerKnown(BindAcquireStep(w, q)) && IssuerKnown(BindSwapStep(w, q))
  {
    hide BindDecide, Observe, UpgradeAttached, RebindAttached;
  }

  lemma QuietStepKeepsIssuer(w: World, act: Action)
    requires IssuerKnown(w) && QuietAction(act)
    ensures IssuerKnown(Step(w, act))
  {
    hide IssuerKnown, SpawnStep, CrashStep, AttachStep, LocalStep, BeginStartStep, BeginPickStep, BeginLeaseStep,
      BeginCreateStep, BindStartStep, BindReadStep, BindObserveStep, BindAcquireStep, BindSwapStep, BindAnnounceStep,
      ClaimStartStep, ClaimReadStep, ClaimPublishStep, ClaimFenceStep, ClaimRereadStep, AckStartStep, AckReadStep, AckDeleteStep,
      FailStartStep, FailFinishStep, RecoverStartStep, RecoverReadStep, RecoverObserveStep, RecoverDeleteStep,
      RecoverFinishStep, LoseOwnerStep, ClaimAutoStep, AckDeliveryStep;
    match act
    case Spawn(q, role) => QuietKeepsIssuer(w, q, role, 0, 0, 0);
    case Crash(q) => QuietKeepsIssuer(w, q, Ui, 0, 0, 0);
    case Attach(q, region) => QuietKeepsIssuer(w, q, Ui, 0, region, 0);
    case BeginPick(q, a) => TakingKeepsIssuer(w, q, a);
    case BeginLease(q) => TakingKeepsIssuer(w, q, 0);
    case BindReadJournal(q) => TakingKeepsIssuer(w, q, 0);
    case BindObserve(q) => TakingKeepsIssuer(w, q, 0);
    case BindAcquire(q) => TakingKeepsIssuer(w, q, 0);
    case BindSwap(q) => TakingKeepsIssuer(w, q, 0);
    case AckRead(q) => QuietKeepsIssuer(w, q, Ui, 0, 0, 0);
    case RecoverRead(t) => TasksKeepIssuer(w, t, NO_INPUT);
    case RecoverObserve(t) => TasksKeepIssuer(w, t, NO_INPUT);
    case RecoverDelete(t) => TasksKeepIssuer(w, t, NO_INPUT);
    case AckDelivery(q, region, a, wall) => QuietKeepsIssuer(w, q, Ui, a, region, wall);
  }

  lemma OpeningStepKeepsIssuer(w: World, act: Action)
    requires IssuerKnown(w) && OpeningAction(act)
    ensures IssuerKnown(Step(w, act))
  {
    hide IssuerKnown, SpawnStep, CrashStep, AttachStep, LocalStep, BeginStartStep, BeginPickStep, BeginLeaseStep,
      BeginCreateStep, BindStartStep, BindReadStep, BindObserveStep, BindAcquireStep, BindSwapStep, BindAnnounceStep,
      ClaimStartStep, ClaimReadStep, ClaimPublishStep, ClaimFenceStep, ClaimRereadStep, AckStartStep, AckReadStep, AckDeleteStep,
      FailStartStep, FailFinishStep, RecoverStartStep, RecoverReadStep, RecoverObserveStep, RecoverDeleteStep,
      RecoverFinishStep, LoseOwnerStep, ClaimAutoStep, AckDeliveryStep;
    match act
    case Local(q, m, i) => SinglesKeepIssuer(w, q, m, 0, false, false, i);
    case BeginStart(q, epoch, i) => OpeningsKeepIssuer(w, q, epoch, 0, false, i);
    case BindStart(q, a, i) => OpeningsKeepIssuer(w, q, 0, a, false, i);
    case BindAnnounce(q, i) => SinglesKeepIssuer(w, q, DoSync, 0, false, false, i);
    case ClaimStart(q, epoch, i) => OpeningsKeepIssuer(w, q, epoch, 0, false, i);
    case AckStart(q, a, i) => OpeningsKeepIssuer(w, q, 0, a, false, i);
    case FailStart(q, a, req, i) => OpeningsKeepIssuer(w, q, 0, a, req, i);
    case RecoverStart(q, a, i) => SinglesKeepIssuer(w, q, DoSync, a, false, false, i);
    case LoseOwner(q, i) => SinglesKeepIssuer(w, q, DoSync, 0, false, false, i);
    case ClaimAutoRecovery(q, hasProfile, active, i) => SinglesKeepIssuer(w, q, DoSync, 0, hasProfile, active, i);
  }

  lemma OwningStepKeepsIssuer(w: World, act: Action)
    requires IssuerKnown(w) && !QuietAction(act) && !OpeningAction(act)
    ensures IssuerKnown(Step(w, act))
  {
    hide IssuerKnown, SpawnStep, CrashStep, AttachStep, LocalStep, BeginStartStep, BeginPickStep, BeginLeaseStep,
      BeginCreateStep, BindStartStep, BindReadStep, BindObserveStep, BindAcquireStep, BindSwapStep, BindAnnounceStep,
      ClaimStartStep, ClaimReadStep, ClaimPublishStep, ClaimFenceStep, ClaimRereadStep, AckStartStep, AckReadStep, AckDeleteStep,
      FailStartStep, FailFinishStep, RecoverStartStep, RecoverReadStep, RecoverObserveStep, RecoverDeleteStep,
      RecoverFinishStep, LoseOwnerStep, ClaimAutoStep, AckDeliveryStep;
    match act
    case BeginCreate(q, i) => CreateKeepsIssuer(w, q, i);
    case ClaimReadJournal(q) => ClaimsKeepIssuer(w, q, NO_INPUT);
    case ClaimPublish(q, i) => ClaimsKeepIssuer(w, q, i);
    case ClaimFence(q) => ClaimsKeepIssuer(w, q, NO_INPUT);
    case ClaimReread(q) => ClaimsKeepIssuer(w, q, NO_INPUT);
    case AckDelete(q, i) => CommitsKeepIssuer(w, q, i);
    case FailFinish(q, i) => CommitsKeepIssuer(w, q, i);
    case RecoverFinish(t, i) => TasksKeepIssuer(w, t, i);
  }

  lemma StepKeepsIssuer(w: World, act: Action)
    requires IssuerKnown(w)
    ensures IssuerKnown(Step(w, act))
  {
    hide IssuerKnown, Step;
    if QuietAction(act) {
      QuietStepKeepsIssuer(w, act);
    } else if OpeningAction(act) {
      OpeningStepKeepsIssuer(w, act);
    } else {
      OwningStepKeepsIssuer(w, act);
    }
  }

  /** In every history, whoever holds the issuer lease is the living UI process that knows it. */
  lemma {:induction false} IssuerIsKnown(ws: seq<World>, acts: seq<Action>, k: nat)
    requires IsHistory(ws, acts) && k < |ws|
    ensures IssuerKnown(ws[k])
    decreases k
  {
    hide Step;
    if k > 0 {
      IssuerIsKnown(ws, acts, k - 1);
      hide IssuerKnown;
      StepKeepsIssuer(ws[k - 1], acts[k - 1]);
    }
  }

  // --------------------------------------------- a clean core holds no lease

  /** Without an attempt to clean up, no issuer lease is kept. */
  predicate Light(c: Core) { Open(c) ==> c.issuerLease.None? }

  lemma ApplyKeepsLight(c: Core, env: Env, expected: Option<AttemptId>, f: Frame)
    requires Light(c)
    ensures Light(Apply(c, env, expected, f).core)
  {
    if Adopts(c, env.isUi, expected, f.session) {
      assert !Watchdog(Seen(c, env, expected, f), env, f.session.running, f.updatedAt > c.watch.remoteUpdatedAt).1;
    }
    hide Watchdog;
  }

  lemma SyncKeepsLight(c: Core, env: Env)
    requires Light(c)
    ensures Light(Sync(c, env).core)
  {
    hide Apply;
    if env.lane.Some? {
      ApplyKeepsLight(c, env, None, env.lane.value);
    }
  }

  lemma BindingKeepsLight(c: Core, env: Env, a: AttemptId, self: ProcessId)
    requires Light(c)
    ensures Light(BindAdopt(c, env, a).0.core) && Light(BindPublish(c, env, a, self).0.core)
  {
    hide Apply, Sync;
    SyncKeepsLight(c, env);
    if env.lane.Some? {
      ApplyKeepsLight(c, env, Some(a), env.lane.value);
    }
  }

  lemma ClosingKeepsLight(c: Core, env: Env, a: AttemptId, req: bool)
    requires Light(c)
    ensures Light(RecoveryCommit(c, env, a).core) && Light(CleanupCommit(c, env).core)
    ensures a != NO_ATTEMPT ==> Light(BeginCommit(c, env, a).core)
    ensures Light(FailCommit(c, env, req).core)
  {
    hide Sync;
    SyncKeepsLight(c, env);
  }

  lemma RequestsKeepLight(c: Core, env: Env, a: AttemptId)
    requires Light(c)
    ensures Light(CancelStart(c, env, a).0.core) && Light(RequestStop(c, env, a).0.core) && Light(StopSession(c, env, a).0.core)
  {
    hide Sync;
    SyncKeepsLight(c, env);
  }

  lemma StartsKeepLight(c: Core, env: Env, a: AttemptId, b: bool, engine: Engine)
    requires Light(c)
    ensures Light(StartCommit(c, env, a).0.core) && Light(StartExternal(c, env, a, engine).0.core)
    ensures Light(SetStarting(c, env, a, b).0.core) && Light(SetFailed(c, env, a).0.core)
  {
    hide Sync;
    SyncKeepsLight(c, env);
  }

  lemma TicksKeepLight(c: Core, env: Env, a: AttemptId, free: bool)
    requires Light(c)
    ensures Light(Tick(c, env, a, free).0.core)
  {
    hide Sync;
    SyncKeepsLight(c, env);
  }

  lemma OthersKeepLight(c: Core, env: Env, a: AttemptId, epoch: nat, j: Journal, b: bool, orphan: Option<AttemptId>)
    requires Light(c)
    ensures Light(StopFinish(c, env, a).core) && Light(NativeExit(c, env, a).core) && Light(OwnerLost(c, env, j).core)
    ensures Light(ClaimRecovery(c, env, b, orphan).0) && Light(Rearm(c, env)) && Light(AttachLane(c))
            && Light(ClaimMark(c, env).core)
    ensures Light(AdvanceIntent(c).0) && Light(BeginOsStop(c, epoch, a).0) && Light(CompleteOsStop(c, epoch, a).0)
    ensures Light(FailOsStop(c, epoch, a).0) && Light(ClaimCommit(c, epoch, a)) && Light(Persist(c, env).core)
    ensures Light(c.(extensionLease := Some(a)))
  {
  }

  lemma LifecycleKeepsLight(c: Core, env: Env, m: Move)
    requires Light(c) && (Lifecycle(m) || m.DoTick? || m.DoBindAdopt? || m.DoBindPublish?)
    ensures Light(Do(c, env, m).core)
  {
    hide Light, Apply, Sync, BindAdopt, BindPublish, RecoveryCommit, CleanupCommit, BeginCommit, FailCommit, CancelStart,
      RequestStop,
      StopSession, StartCommit, StartExternal, SetStarting, SetFailed, Tick, StopFinish, NativeExit, OwnerLost, ClaimRecovery,
          Rearm,
      AttachLane, ClaimMark, AdvanceIntent, BeginOsStop, CompleteOsStop, FailOsStop, ClaimCommit, Persist;
    match m
    case DoBindAdopt(a) => BindingKeepsLight(c, env, a, 0);
    case DoBindPublish(a, self) => BindingKeepsLight(c, env, a, self);
    case DoStopSession(a) => RequestsKeepLight(c, env, a);
    case DoStartCommit(a) => StartsKeepLight(c, env, a, false, Meow);
    case DoStartExternal(a, engine) => StartsKeepLight(c, env, a, false, engine);
    case DoSetStarting(a, b) => StartsKeepLight(c, env, a, b, Meow);
    case DoSetFailed(a) => StartsKeepLight(c, env, a, false, Meow);
    case DoTick(a, free) => TicksKeepLight(c, env, a, free);
  }

  predicate Committing(m: Move) {
    Closing(m) || m.DoCleanupCommit? || m.DoBeginCommit? || m.DoFailCommit?
  }

  lemma CommitKeepsLight(c: Core, env: Env, m: Move)
    requires Light(c) && Enabled(c, m) && Committing(m)
    ensures Light(Do(c, env, m).core)
  {
    hide Light, Apply, Sync, BindAdopt, BindPublish, RecoveryCommit, CleanupCommit, BeginCommit, FailCommit, CancelStart,
      RequestStop,
      StopSession, StartCommit, StartExternal, SetStarting, SetFailed, Tick, StopFinish, NativeExit, OwnerLost, ClaimRecovery,
          Rearm,
      AttachLane, ClaimMark, AdvanceIntent, BeginOsStop, CompleteOsStop, FailOsStop, ClaimCommit, Persist;
    match m
    case DoRecoveryCommit(a) => ClosingKeepsLight(c, env, a, false);
    case DoCleanupCommit => ClosingKeepsLight(c, env, 0, false);
    case DoBeginCommit(a) => ClosingKeepsLight(c, env, a, false);
    case DoFailCommit(req) => ClosingKeepsLight(c, env, 0, req);
    case DoCancel(a) => RequestsKeepLight(c, env, a);
    case DoRequestStop(a) => RequestsKeepLight(c, env, a);
  }

  lemma OtherMovesKeepLight(c: Core, env: Env, m: Move)
    requires Light(c) && !Lifecycle(m) && !m.DoTick? && !m.DoBindAdopt? && !m.DoBindPublish? && !Committing(m)
    ensures Light(Do(c, env, m).core)
  {
    hide Light, Apply, Sync, BindAdopt, BindPublish, RecoveryCommit, CleanupCommit, BeginCommit, FailCommit, CancelStart,
      RequestStop,
      StopSession, StartCommit, StartExternal, SetStarting, SetFailed, Tick, StopFinish, NativeExit, OwnerLost, ClaimRecovery,
          Rearm,
      AttachLane, ClaimMark, AdvanceIntent, BeginOsStop, CompleteOsStop, FailOsStop, ClaimCommit, Persist;
    SyncKeepsLight(c, env);
    OthersKeepLight(c, env, 0, 0, Missing, false, None);
    match m
    case DoStopFinish(a) => OthersKeepLight(c, env, a, 0, Missing, false, None);
    case DoNativeExit(a) => OthersKeepLight(c, env, a, 0, Missing, false, None);
    case DoOwnerLost(j) => OthersKeepLight(c, env, 0, 0, j, false, None);
    case DoClaimRecovery(b, orphan) => OthersKeepLight(c, env, 0, 0, Missing, b, orphan);
    case DoBeginOsStop(epoch, a) => OthersKeepLight(c, env, a, epoch, Missing, false, None);
    case DoCompleteOsStop(epoch, a) => OthersKeepLight(c, env, a, epoch, Missing, false, None);
    case DoFailOsStop(epoch, a) => OthersKeepLight(c, env, a, epoch, Missing, false, None);
    case DoClaimCommit(epoch, a) => OthersKeepLight(c, env, a, epoch, Missing, false, None);
    case DoTakeExtensionLease(a) => OthersKeepLight(c, env, a, 0, Missing, false, None);
    case _ =>
  }

  lemma MoveKeepsLight(c: Core, env: Env, m: Move)
    requires Light(c) && Enabled(c, m)
    ensures Light(Do(c, env, m).core)
  {
    hide Light, Do, Enabled;
    if Lifecycle(m) || m.DoTick? || m.DoBindAdopt? || m.DoBindPublish? {
      LifecycleKeepsLight(c, env, m);
    } else if Committing(m) {
      CommitKeepsLight(c, env, m);
    } else {
      OtherMovesKeepLight(c, env, m);
    }
  }

  lemma {:induction false} EveryoneIsLight(ws: seq<World>, acts: seq<Action>, k: nat, p: ProcessId)
    requires IsHistory(ws, acts) && k < |ws| && p in ws[k].procs
    ensures Light(ws[k].procs[p].core)
    decreases k
  {
    hide Step, Inv, Do, Enabled;
    if k > 0 {
      if p in ws[k - 1].procs {
        EveryoneIsLight(ws, acts, k - 1, p);
        var e := PickMove(ws, acts, p, k - 1);
        MoveKeepsLight(ws[k - 1].procs[p].core, e.env, e.move);
      } else {
        BornInitial(ws[k - 1], acts[k - 1], p);
      }
    }
  }

  lemma BornInitial(w: World, act: Action, p: ProcessId)
    requires p !in w.procs && p in Step(w, act).procs
    ensures Step(w, act).procs[p].core == INITIAL
  {
    if !act.Spawn? && !act.Crash? {
      hide Step;
      StepKeepsProcesses(w, act);
    }
  }

  // ------------------------------------------- a start after the acknowledgement

  /** Only a start brings an entry into an empty journal. */
  lemma MissingStays(w: World, act: Action)
    requires w.journal.Missing? && !act.BeginCreate?
    ensures Step(w, act).journal.Missing?
  {
    if !Swaps(act) {
      hide Step;
      QuietStep(w, act);
    } else {
      hide Act, Do;
      ActStore();
    }
  }

  lemma {:induction false} StaysMissing(ws: seq<World>, acts: seq<Action>, k: nat, j: nat)
    requires IsHistory(ws, acts) && k <= j < |ws| && ws[k].journal.Missing?
    requires forall m :: k <= m < j ==> !acts[m].BeginCreate?
    ensures ws[j].journal.Missing?
    decreases j
  {
    hide Step;
    if k < j {
      StaysMissing(ws, acts, k, j - 1);
      MissingStays(ws[j - 1], acts[j - 1]);
    }
  }

  /** The core is clean, or its lane now tells it so: a newer, final frame of its attempt with the cleanup done. */
  predicate HearsOfCleanup(c: Core, env: Env) {
    if env.lane.Some? && Ours(c, env.lane.value) && PlatformLaws.IsNewer(c, env.lane.value) then
      !Unfinished(env.lane.value.session.outcome) && env.lane.value.session.cleanup
    else Open(c) && !c.session.running && c.session.outcome != Outcome.Pending
  }

  lemma HeardMeansClean(c: Core, env: Env)
    requires HearsOfCleanup(c, env)
    ensures var d := Sync(c, env).core;
            && d.fence == c.fence && (d.session.attempt == NO_ATTEMPT || d.session.cleanup)
            && !d.session.running && d.session.outcome != Outcome.Pending
            && (d.issuerLease.None? || (Open(c) && d.issuerLease == c.issuerLease))
  {
    ForeignFrameIsIgnored(c, env, Frame(c.session, 0));
    if env.lane.Some? {
      var f := env.lane.value;
      ForeignFrameIsIgnored(c, env, f);
      if Ours(c, f) {
        if PlatformLaws.IsNewer(c, f) { FinalFrameIsTaken(c, env, None, f); } else { OldFrameOnlyTells(c, env, None, f); }
      }
    }
    hide Sync, Apply;
  }

  /**
   The barrier opens again. Once an Extension's acknowledgement has emptied the
   journal, and no other start came between, the next start of a UI process that
   hears of it succeeds if nobody disturbs it: whatever happened since the
   acknowledgement, journal and issuer lease are free for it.
   */
  lemma StartAfterAcknowledgement(
    ws: seq<World>, acts: seq<Action>, k: nat, j: nat, p: ProcessId, epoch: nat, a: AttemptId, i: Input
  )
    requires IsHistory(ws, acts) && k < j < |ws| && acts[k].AckDelete? && ws[k].journal.Present? && ws[k + 1].journal.Missing?
    requires forall m :: k < m < j ==> !acts[m].BeginCreate?
    requires MutexFree(ws[j], p, Ui) && HearsOfCleanup(ws[j].procs[p].core, EnvOf(ws[j], ws[j].procs[p], i))
    requires epoch != 0 && ws[j].procs[p].core.fence.intent == epoch && ws[j].procs[p].core.fence.epoch == 0
    requires i.native != NativeRunning && p != NO_PROCESS && a != NO_ATTEMPT && a !in ws[j].issuerOf
    ensures var w := BeginChain(ws[j], p, epoch, a, i);
            && w.journal == Present(Owner(a, p, None, Phase.Pending)) && w.issuer == Lease(Some(p), Some(LeaseRecord(a, p)))
            && p in w.procs && w.procs[p].core.session.attempt == a && w.procs[p].core.session.outcome == Outcome.Pending
  {
    hide Step, Inv;
    StaysMissing(ws, acts, k + 1, j);
    IssuerIsKnown(ws, acts, j);
    EveryoneIsLight(ws, acts, j, p);
    ReachableInv(ws, acts, j);
    StartSucceeds(ws[j], p, epoch, a, i);
  }

  lemma StartSucceeds(w: World, p: ProcessId, epoch: nat, a: AttemptId, i: Input)
    requires Inv(w, None) && IssuerKnown(w) && w.journal.Missing?
    requires MutexFree(w, p, Ui) && Light(w.procs[p].core) && HearsOfCleanup(w.procs[p].core, EnvOf(w, w.procs[p], i))
    requires epoch != 0 && w.procs[p].core.fence.intent == epoch && w.procs[p].core.fence.epoch == 0
    requires i.native != NativeRunning && p != NO_PROCESS && a != NO_ATTEMPT && a !in w.issuerOf
    ensures var v := BeginChain(w, p, epoch, a, i);
            && v.journal == Present(Owner(a, p, None, Phase.Pending)) && v.issuer == Lease(Some(p), Some(LeaseRecord(a, p)))
            && p in v.procs && v.procs[p].core.session.attempt == a && v.procs[p].core.session.outcome == Outcome.Pending
  {
    if w.issuer.holder.Some? {
      SoleUi(w, p, w.issuer.holder.value);
    }
    hide Inv, BeginChain, BeginRun, Sync, HearsOfCleanup;
    var c, env := w.procs[p].core, EnvOf(w, w.procs[p], i);
    HeardMeansClean(c, env);
    BeginUninterrupted(w, p, epoch, a, i);
    BeginSucceedsIff(c, SharedOf(w), env, epoch, a, p);
  }

  lemma SoleUi(w: World, p: ProcessId, q: ProcessId)
    requires Inv(w, None) && At(w, p, Ui) && At(w, q, Ui)
    ensures p == q
  {
  }

  // ----------------------------------------- Connected after the Extension's commit

  /** Extension q commits its start of a, and the frame that says so reaches the lane of its region. */
  predicate CommitsInLane(w: World, act: Action, q: ProcessId, a: AttemptId) {
    && act.Local? && act.p == q && act.move == DoStartCommit(a) && MutexFree(w, q, Extension)
    && w.procs[q].region in w.lanes
    && var (e, ok) := StartCommit(w.procs[q].core, EnvOf(w, w.procs[q], act.i), a);
       ok && act.i.landed == |e.published| - 1
  }

  lemma CommitIsInLane(w: World, act: Action, q: ProcessId, a: AttemptId)
    requires CommitsInLane(w, act, q, a)
    ensures var v := Step(w, act);
            w.procs[q].region in v.lanes && ShowsRunning(v.lanes[w.procs[q].region].extension, a)
  {
    var env := EnvOf(w, w.procs[q], act.i);
    CommitSucceedsIff(w.procs[q].core, env, a, Mihomo);
    hide Sync, EnvOf, StartCommit;
  }

  /** The lane says that a is Connected and runs. */
  predicate ShowsRunning(lane: Option<Frame>, a: AttemptId) {
    && lane.Some? && lane.value.session.attempt == a && a != NO_ATTEMPT
    && lane.value.session.outcome == Connected && lane.value.session.running && lane.value.session.engine == Some(Meow)
  }

  /**
   Once an Extension has committed its start, a UI process that reads that frame of
   its own unfinished attempt is Connected and running, whatever came between, and
   calls off any recovery.
   */
  lemma CommitReachesUi(
    ws: seq<World>, acts: seq<Action>, k: nat, j: nat, q: ProcessId, p: ProcessId, a: AttemptId, i: Input
  )
    requires IsHistory(ws, acts) && k < j < |ws| && CommitsInLane(ws[k], acts[k], q, a)
    requires MutexFree(ws[j], p, Ui) && ws[j].procs[p].region == ws[k].procs[q].region && ws[j].procs[p].region in ws[j].lanes
    requires ws[j].lanes[ws[j].procs[p].region].extension == ws[k + 1].lanes[ws[j].procs[p].region].extension
    requires var c := ws[j].procs[p].core;
             && c.session.attempt == a && (c.session.outcome == Outcome.Pending || c.session.outcome == Connected)
             && PlatformLaws.IsNewer(c, ws[j].lanes[ws[j].procs[p].region].extension.value)
    ensures var v := Step(ws[j], Local(p, DoSync, i));
            && p in v.procs && v.procs[p].core.session.attempt == a
            && v.procs[p].core.session.outcome == Connected && v.procs[p].core.session.running
               && !v.procs[p].core.session.starting
            && v.procs[p].core.session.engine == Some(Meow) && !v.procs[p].core.recovery.pending
  {
    CommitIsInLane(ws[k], acts[k], q, a);
    UiTakesRunning(ws[j], p, a, i);
  }

  lemma UiTakesRunning(w: World, p: ProcessId, a: AttemptId, i: Input)
    requires MutexFree(w, p, Ui) && w.procs[p].region in w.lanes && ShowsRunning(w.lanes[w.procs[p].region].extension, a)
    requires var c := w.procs[p].core;
             && c.session.attempt == a && (c.session.outcome == Outcome.Pending || c.session.outcome == Connected)
             && PlatformLaws.IsNewer(c, w.lanes[w.procs[p].region].extension.value)
    ensures var v := Step(w, Local(p, DoSync, i));
            && p in v.procs && v.procs[p].core.session.attempt == a
            && v.procs[p].core.session.outcome == Connected && v.procs[p].core.session.running
               && !v.procs[p].core.session.starting
            && v.procs[p].core.session.engine == Some(Meow) && !v.procs[p].core.recovery.pending
  {
    var c, env := w.procs[p].core, EnvOf(w, w.procs[p], i);
    var f := w.lanes[w.procs[p].region].extension.value;
    LiveFrameIsTaken(c, env, None, f);
    ForeignFrameIsIgnored(c, env, f);
    SyncIsAMove(c, env);
    hide Apply, Sync, Do;
  }

  lemma SyncIsAMove(c: Core, env: Env)
    ensures Do(c, env, DoSync) == Sync(c, env)
  {
    hide Sync;
  }
}
