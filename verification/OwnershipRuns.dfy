/**
 Every life of a process inside the protocol is a run of moves of its core, so
 the theorems about runs apply to it; and a stop mark in the UI lane is final.
 */
module OwnershipRuns {
  import opened Wrappers
  import opened OwnerJournal
  import opened PlatformState
  import opened SessionMoves
  import opened SessionTheorems
  import opened MoveFacts
  import opened OwnershipWorld
  import opened OwnershipInvariant
  import opened OwnershipSteps
  import opened OwnershipRaces
  import opened OwnershipClosing
  import opened OwnershipTheorems

  /** A move that does nothing, for the steps of other processes. */
  const STUTTER := DoRequestStop(NO_ATTEMPT)

  /** The UI lane of r is as before. */
  predicate SameLane(w: World, w2: World, r: ProcessId) {
    r in w.lanes ==> r in w2.lanes && w2.lanes[r].ui == w.lanes[r].ui
  }

  ghost predicate LaneFrom(w: World, w2: World, q: ProcessId, frames: seq<Frame>) {
    SameLane(w, w2, q) || (q in w2.lanes && exists k :: 0 <= k < |frames| && w2.lanes[q].ui == Some(frames[k]))
  }

  /**
   Event e takes the core of q in w to its core in w2, and the lane that q
   publishes on changes only by it; a begun attempt is new to the world, and an
   orphan to recover is one the world has seen.
   */
  ghost predicate Simulates(w: World, w2: World, q: ProcessId, e: Event)
    requires q in w.procs && q in w2.procs
  {
    && Enabled(w.procs[q].core, e.move)
    && e.env.isUi == w.procs[q].role.Ui?
    && w2.procs[q].core == Do(w.procs[q].core, e.env, e.move).core
    && w2.procs[q].role == w.procs[q].role
    && LaneFrom(w, w2, q, Do(w.procs[q].core, e.env, e.move).published)
    && (e.move.DoBeginCommit? ==> e.move.attempt !in w.issuerOf)
    && (e.move.DoClaimRecovery? && e.move.orphan.Some? ==> e.move.orphan.value in w.issuerOf)
  }

  ghost predicate Advances(w: World, w2: World) {
    && (forall q :: q in w.procs && q in w2.procs ==> exists e :: Simulates(w, w2, q, e))
    && (forall r :: !(r in w.procs && r in w2.procs) ==> SameLane(w, w2, r))
  }

  predicate Stays(w: World, w2: World, q: ProcessId)
    requires q in w.procs && q in w2.procs
  {
    w2.procs[q].core == w.procs[q].core && w2.procs[q].role == w.procs[q].role && SameLane(w, w2, q)
  }

  lemma Stutters(w: World, w2: World, q: ProcessId)
    requires q in w.procs && q in w2.procs && Stays(w, w2, q)
    ensures exists e :: Simulates(w, w2, q, e)
  {
    assert Simulates(w, w2, q, Event(STUTTER, Env(w.procs[q].role.Ui?, None, 0, 0, NativeStopped)));
  }

  /** Steps that leave every core alone. */
  lemma StayAdvances(w: World, w2: World)
    requires forall q :: q in w.procs && q in w2.procs ==> Stays(w, w2, q)
    requires forall r :: r in w.lanes ==> SameLane(w, w2, r)
    ensures Advances(w, w2)
  {
    hide Simulates;
    forall q | q in w.procs && q in w2.procs ensures exists e :: Simulates(w, w2, q, e) {
      Stutters(w, w2, q);
    }
  }

  lemma OneMoves(w: World, w2: World, p: ProcessId, e: Event)
    requires p in w.procs && p in w2.procs && Simulates(w, w2, p, e)
    requires forall q :: q in w.procs && q in w2.procs && q != p ==> w2.procs[q] == w.procs[q]
    requires forall r :: r in w.lanes && r != p ==> SameLane(w, w2, r)
    ensures Advances(w, w2)
  {
    hide Do, Enabled;
    forall q | q in w.procs && q in w2.procs ensures exists e :: Simulates(w, w2, q, e) {
      if q == p {
        assert Simulates(w, w2, q, e);
      } else {
        Stutters(w, w2, q);
      }
    }
  }

  /** A UI process publishes on its own region, and only a UI process publishes on a UI lane. */
  predicate AtHome(w: World, p: ProcessId) {
    p in w.procs && (w.procs[p].role.Ui? ==> w.procs[p].region == p)
  }

  lemma IsAtHome(w: World, p: ProcessId)
    requires Inv(w, None) && p in w.procs
    ensures AtHome(w, p)
  {
    assert ProcOk(w, p, None);
  }

  lemma MoveAdvances(w: World, w2: World, p: ProcessId, m: Move, i: Input)
    requires AtHome(w, p) && Enabled(w.procs[p].core, m)
    requires var e := Do(w.procs[p].core, EnvOf(w, w.procs[p], i), m);
             && w2.lanes == Publish(w, w.procs[p], e.published, i.landed)
             && exists pc :: w2.procs == w.procs[p := w.procs[p].(core := e.core, pc := pc)]
    requires m.DoBeginCommit? ==> m.attempt !in w.issuerOf
    requires m.DoClaimRecovery? && m.orphan.Some? ==> m.orphan.value in w.issuerOf
    ensures Advances(w, w2)
  {
    hide Do, Enabled;
    var e := Event(m, EnvOf(w, w.procs[p], i));
    assert Simulates(w, w2, p, e);
    OneMoves(w, w2, p, e);
  }

  /** `v` is w up to its journal, history and tasks. */
  lemma ActAdvances(w: World, v: World, p: ProcessId, m: Move, i: Input, pc: Pc)
    requires AtHome(w, p) && v.procs == w.procs && v.lanes == w.lanes && Enabled(w.procs[p].core, m)
    requires m.DoBeginCommit? ==> m.attempt !in w.issuerOf
    requires m.DoClaimRecovery? && m.orphan.Some? ==> m.orphan.value in w.issuerOf
    ensures Advances(w, Act(v, p, m, i, pc))
  {
    hide Do, Enabled;
    assert EnvOf(v, w.procs[p], i) == EnvOf(w, w.procs[p], i);
    MoveAdvances(w, Act(v, p, m, i, pc), p, m, i);
  }

  lemma AttachAdvances(w: World, p: ProcessId, region: ProcessId)
    ensures Advances(w, AttachStep(w, p, region))
  {
    if MutexFree(w, p, Extension) && region in w.lanes {
      var e := Event(DoAttachLane, Env(false, None, 0, 0, NativeStopped));
      assert Simulates(w, AttachStep(w, p, region), p, e);
      OneMoves(w, AttachStep(w, p, region), p, e);
    } else {
      StayAdvances(w, w);
    }
  }

  lemma SwapAdvances(w: World, p: ProcessId)
    ensures Advances(w, BindSwapStep(w, p))
  {
    var w2 := BindSwapStep(w, p);
    if At(w, p, Extension) && w.procs[p].pc.BindLeased? && w2.procs[p].pc.BindOwned? {
      hide RebindAttached, UpgradeAttached;
      var e := Event(DoTakeExtensionLease(w.procs[p].pc.attempt), Env(false, None, 0, 0, NativeStopped));
      assert Simulates(w, w2, p, e);
      OneMoves(w, w2, p, e);
    } else {
      hide RebindAttached, UpgradeAttached, Do, Enabled;
      StayAdvances(w, w2);
    }
  }

  lemma CreateAdvances(w: World, p: ProcessId, i: Input)
    requires Inv(w, None)
    ensures Advances(w, BeginCreateStep(w, p, i))
  {
    if At(w, p, Ui) && w.procs[p].pc.BeginLeased? {
      PcHolds(w, p);
      IsAtHome(w, p);
      BasicHolds(w, p);
      hide Inv, Do, Act;
      var a := w.procs[p].pc.attempt;
      var (j, ok) := CreatePending(w.journal, a, p);
      if ok {
        ActAdvances(w, Record(w, j).(issuerOf := w.issuerOf[a := p]), p, DoBeginCommit(a), i, Free);
      } else {
        StayAdvances(w, BeginCreateStep(w, p, i));
      }
    } else {
      StayAdvances(w, w);
    }
  }

  lemma BasicHolds(w: World, p: ProcessId)
    requires Inv(w, None) && p in w.procs
    ensures BasicOk(w, p, w.procs[p])
  {
    assert ProcOk(w, p, None);
  }

  lemma ClaimReadAdvances(w: World, p: ProcessId)
    requires Inv(w, None)
    ensures Advances(w, ClaimReadStep(w, p))
  {
    var w2 := ClaimReadStep(w, p);
    if At(w, p, Ui) && w.procs[p].pc.ClaimSynced? && ClaimDecide(w.procs[p].core, w.journal).ClaimRetained? {
      PcHolds(w, p);
      IsAtHome(w, p);
      hide Inv, Do, Act, Advances;
      ActAdvances(w, w, p, DoClaimCommit(w.procs[p].pc.epoch, ClaimDecide(w.procs[p].core, w.journal).stale), NO_INPUT, Free);
    } else {
      hide Inv, Do, Act, ClaimDecide;
      StayAdvances(w, w2);
    }
  }

  lemma ClaimPublishAdvances(w: World, p: ProcessId, i: Input)
    requires Inv(w, None)
    ensures Advances(w, ClaimPublishStep(w, p, i))
  {
    if At(w, p, Ui) && w.procs[p].pc.ClaimRead? {
      PcHolds(w, p);
      IsAtHome(w, p);
      hide Inv, Do, Act, Advances;
      var pc := w.procs[p].pc;
      ActAdvances(w, w, p, DoClaimMark, i, if i.landed == 0 then ClaimFencing(pc.epoch, pc.owner) else Free);
    } else {
      StayAdvances(w, w);
    }
  }

  lemma FencePendingAdvances(w: World, p: ProcessId)
    requires Inv(w, None) && At(w, p, Ui) && w.procs[p].pc.ClaimFencing?
    requires w.procs[p].pc.owner.phase.Pending? && w.procs[p].pc.owner.extension.None?
    ensures Advances(w, ClaimFenceStep(w, p))
  {
    PcHolds(w, p);
    IsAtHome(w, p);
    hide Inv, Do, Advances, FencePendingStop;
    var epoch, o := w.procs[p].pc.epoch, w.procs[p].pc.owner;
    var (j, result) := FencePendingStop(w.journal, o.attempt, o.issuer);
    if result.Fenced? {
      hide Act;
      ActAdvances(w, Record(w, j), p, DoClaimCommit(epoch, o.attempt), NO_INPUT, Free);
    } else {
      hide Act;
      StayAdvances(w, ClaimFenceStep(w, p));
    }
  }

  lemma FenceSettledAdvances(w: World, p: ProcessId)
    requires Inv(w, None) && At(w, p, Ui) && w.procs[p].pc.ClaimFencing?
    requires !(w.procs[p].pc.owner.phase.Pending? && w.procs[p].pc.owner.extension.None?)
    ensures Advances(w, ClaimFenceStep(w, p))
  {
    PcHolds(w, p);
    IsAtHome(w, p);
    hide Inv, Do, Act, Advances, FencePendingStop;
    var epoch, o := w.procs[p].pc.epoch, w.procs[p].pc.owner;
    if o.phase.Pending? || (o.phase.Attached? != o.extension.Some?) {
      StayAdvances(w, Goto(w, p, Free));
    } else {
      ActAdvances(w, w, p, DoClaimCommit(epoch, o.attempt), NO_INPUT, Free);
    }
  }

  lemma ClaimFenceAdvances(w: World, p: ProcessId)
    requires Inv(w, None)
    ensures Advances(w, ClaimFenceStep(w, p))
  {
    if At(w, p, Ui) && w.procs[p].pc.ClaimFencing? {
      hide Inv, ClaimFenceStep, Advances;
      if w.procs[p].pc.owner.phase.Pending? && w.procs[p].pc.owner.extension.None? {
        FencePendingAdvances(w, p);
      } else {
        FenceSettledAdvances(w, p);
      }
    } else {
      StayAdvances(w, w);
    }
  }

  lemma ClaimRereadAdvances(w: World, p: ProcessId)
    requires Inv(w, None)
    ensures Advances(w, ClaimRereadStep(w, p))
  {
    hide Inv, Do, Act, Advances, ClaimStillOwned;
    if At(w, p, Ui) && w.procs[p].pc.ClaimLost? {
      PcHolds(w, p);
      IsAtHome(w, p);
      ActAdvances(w, w, p, DoClaimCommit(w.procs[p].pc.epoch, w.procs[p].pc.attempt), NO_INPUT, Free);
      StayAdvances(w, Goto(w, p, Free));
    } else {
      StayAdvances(w, w);
    }
  }

  lemma AckAdvances(w: World, p: ProcessId, i: Input)
    requires Inv(w, None)
    ensures Advances(w, AckDeleteStep(w, p, i))
  {
    if At(w, p, Extension) && w.procs[p].pc.AckMatched? {
      PcHolds(w, p);
      IsAtHome(w, p);
      hide Inv, Do, Act, Advances, DeleteExact;
      StayAdvances(w, Goto(w, p, Free));
      ActAdvances(w, Record(w, DeleteExact(w.journal, w.procs[p].pc.attempt, Some(p)).0), p, DoCleanupCommit, i, Free);
    } else {
      StayAdvances(w, w);
    }
  }

  lemma FailAdvances(w: World, p: ProcessId, i: Input)
    requires Inv(w, None)
    ensures Advances(w, FailFinishStep(w, p, i))
  {
    hide Inv, Do, Act, Advances, DeletePendingExact;
    if p in w.procs && w.procs[p].pc.FailReady? {
      PcHolds(w, p);
      IsAtHome(w, p);
      if !w.procs[p].pc.requireUnattached {
        ActAdvances(w, w, p, DoFailCommit(false), i, Free);
      } else {
        StayAdvances(w, Goto(w, p, Free));
        ActAdvances(w, Record(w, DeletePendingExact(w.journal, w.procs[p].pc.attempt).0), p, DoFailCommit(true), i, Free);
      }
    } else {
      StayAdvances(w, w);
    }
  }

  lemma RecoverAdvances(w: World, t: Task, i: Input)
    requires Inv(w, None)
    ensures Advances(w, RecoverFinishStep(w, t, i))
  {
    if t in w.tasks && t.TaskDeleted? && MutexFree(w, t.process, Ui) {
      TaskHolds(w, t);
      IsAtHome(w, t.process);
      hide Inv, Do, Act, Advances;
      ActAdvances(w, Replace(w, t, {}), t.process, DoRecoveryCommit(t.attempt), i, Free);
    } else {
      StayAdvances(w, w);
    }
  }

  lemma LoseAdvances(w: World, p: ProcessId, i: Input)
    requires Inv(w, None)
    ensures Advances(w, LoseOwnerStep(w, p, i))
  {
    if MutexFree(w, p, Ui) && w.extension.holder.None? {
      JournalSound(w);
      IsAtHome(w, p);
      hide Inv, Do, Act, Advances;
      ActAdvances(w, w, p, DoOwnerLost(w.journal), i, Free);
    } else {
      StayAdvances(w, w);
    }
  }

  /** Steps that open a method by a move that may leave its process inside the method. */
  predicate Opens(act: Action) {
    act.BeginStart? || act.BindStart? || act.ClaimStart? || act.AckStart? || act.FailStart?
  }

  lemma OpenAdvances(w: World, act: Action)
    requires Inv(w, None) && Opens(act)
    ensures Advances(w, Step(w, act))
  {
    hide Inv, Do, Advances, BeginCheck, BindAdopt, ClaimCheck, CleanupCheck, FailCheck, EnvOf, Publish, Unlock, BindDecide,
      ClaimReadStep, ClaimFenceStep, BindSwapStep, BindObserveStep, RecoverObserveStep, BeginCreateStep, FailFinishStep,
      AckDeleteStep, AckDeliveryStep, SpawnStep, CrashStep, LocalStep, RecoverStartStep, RecoverDeleteStep;
    var w2 := Step(w, act);
    if w2.procs == w.procs && w2.lanes == w.lanes {
      StayAdvances(w, w2);
    } else {
      IsAtHome(w, act.p);
      match act
      case BeginStart(p, epoch, i) => MoveAdvances(w, w2, p, DoBeginCheck(epoch), i);
      case BindStart(p, a, i) => MoveAdvances(w, w2, p, DoBindAdopt(a), i);
      case ClaimStart(p, epoch, i) => MoveAdvances(w, w2, p, DoClaimCheck(epoch), i);
      case AckStart(p, a, i) => MoveAdvances(w, w2, p, DoCleanupCheck(a), i);
      case FailStart(p, a, req, i) => MoveAdvances(w, w2, p, DoFailCheck(a, req), i);
    }
  }

  /** Methods of one move. */
  predicate Single(act: Action) {
    act.Local? || act.BindAnnounce? || act.RecoverStart? || act.ClaimAutoRecovery?
  }

  lemma OrphanIsIssued(w: World)
    requires Inv(w, None)
    ensures forall active :: Orphan(w, active).Some? ==> Orphan(w, active).value in w.issuerOf
  {
    JournalSound(w);
    hide Inv;
  }

  lemma SingleAdvances(w: World, act: Action)
    requires Inv(w, None) && Single(act)
    ensures Advances(w, Step(w, act))
  {
    hide Inv, Do, Advances, RecoverySnapshot, EnvOf, Orphan, Publish, Unlock,
      ClaimReadStep, ClaimFenceStep, BindSwapStep, BindObserveStep, RecoverObserveStep, BeginCreateStep, FailFinishStep,
      AckDeleteStep, AckDeliveryStep, SpawnStep, CrashStep, BeginStartStep, BindStartStep, ClaimStartStep, AckStartStep,
      FailStartStep, RecoverDeleteStep;
    var w2 := Step(w, act);
    if w2.procs == w.procs && w2.lanes == w.lanes {
      StayAdvances(w, w2);
    } else {
      IsAtHome(w, act.p);
      OrphanIsIssued(w);
      match act
      case Local(p, m, i) => MoveAdvances(w, w2, p, m, i);
      case BindAnnounce(p, i) => MoveAdvances(w, w2, p, DoBindPublish(w.procs[p].pc.attempt, p), i);
      case RecoverStart(p, a, i) => MoveAdvances(w, w2, p, DoRecoverySnapshot(a), i);
      case ClaimAutoRecovery(p, hasProfile, active, i) =>
        MoveAdvances(w, w2, p, DoClaimRecovery(hasProfile, Orphan(w, active)), i);
    }
  }

  /** Steps that only move a program counter, a lease, a task, a lane or a life. */
  predicate Idle(act: Action) {
    act.Spawn? || act.Crash? || act.BeginPick? || act.BeginLease? || act.BindReadJournal? || act.BindObserve?
    || act.BindAcquire? || act.AckRead? || act.RecoverRead? || act.RecoverObserve? || act.RecoverDelete? || act.AckDelivery?
  }

  /** A process that only looks or locks. */
  predicate Looks(act: Action) {
    act.BeginPick? || act.BeginLease? || act.BindReadJournal? || act.BindObserve? || act.BindAcquire? || act.AckRead?
  }

  lemma LookAdvances(w: World, act: Action)
    requires Looks(act)
    ensures Advances(w, Step(w, act))
  {
    hide Advances, BindDecide, Observe, CleanupOwner, OwnerGone, DeleteExact, Acquire, Act, Do, LocalStep, BeginStartStep,
      BeginCreateStep, BindStartStep, BindSwapStep, BindAnnounceStep, ClaimStartStep, ClaimReadStep, ClaimPublishStep,
      ClaimFenceStep, ClaimRereadStep, AckStartStep, AckDeleteStep, FailStartStep, FailFinishStep, RecoverStartStep,
      RecoverFinishStep, LoseOwnerStep, ClaimAutoStep, AttachStep,
      SpawnStep, CrashStep, RecoverReadStep, RecoverObserveStep, RecoverDeleteStep, AckDeliveryStep;
    StayAdvances(w, Step(w, act));
  }

  lemma ElsewhereAdvances(w: World, act: Action)
    requires Idle(act) && !Looks(act)
    ensures Advances(w, Step(w, act))
  {
    hide Advances, BindDecide, Observe, CleanupOwner, OwnerGone, DeleteExact, Acquire, Act, Do, LocalStep, BeginStartStep,
      BeginCreateStep, BindStartStep, BindSwapStep, BindAnnounceStep, ClaimStartStep, ClaimReadStep, ClaimPublishStep,
      ClaimFenceStep, ClaimRereadStep, AckStartStep, AckDeleteStep, FailStartStep, FailFinishStep, RecoverStartStep,
      RecoverFinishStep, LoseOwnerStep, ClaimAutoStep, AttachStep,
      BeginPickStep, BeginLeaseStep, BindReadStep, BindObserveStep, BindAcquireStep, AckReadStep;
    StayAdvances(w, Step(w, act));
  }

  lemma IdleAdvances(w: World, act: Action)
    requires Idle(act)
    ensures Advances(w, Step(w, act))
  {
    hide Step;
    if Looks(act) {
      LookAdvances(w, act);
    } else {
      ElsewhereAdvances(w, act);
    }
  }

  /** Every step of the protocol is, for every process that survives it, one enabled move of its core. */
  lemma StepIsMove(w: World, act: Action)
    requires Inv(w, None)
    ensures Advances(w, Step(w, act))
  {
    hide Inv, Advances, AttachStep, BindSwapStep, BeginCreateStep, ClaimReadStep, ClaimPublishStep, ClaimFenceStep,
      ClaimRereadStep,
      AckDeleteStep, FailFinishStep, RecoverFinishStep, LoseOwnerStep;
    if Opens(act) {
      hide Step;
      OpenAdvances(w, act);
    } else if Single(act) {
      hide Step;
      SingleAdvances(w, act);
    } else if Idle(act) {
      hide Step;
      IdleAdvances(w, act);
    } else {
      match act
      case Attach(p, region) => AttachAdvances(w, p, region);
      case BindSwap(p) => SwapAdvances(w, p);
      case BeginCreate(p, i) => CreateAdvances(w, p, i);
      case ClaimReadJournal(p) => ClaimReadAdvances(w, p);
      case ClaimPublish(p, i) => ClaimPublishAdvances(w, p, i);
      case ClaimFence(p) => ClaimFenceAdvances(w, p);
      case ClaimReread(p) => ClaimRereadAdvances(w, p);
      case AckDelete(p, i) => AckAdvances(w, p, i);
      case FailFinish(p, i) => FailAdvances(w, p, i);
      case RecoverFinish(t, i) => RecoverAdvances(w, t, i);
      case LoseOwner(p, i) => LoseAdvances(w, p, i);
    }
  }

  // ------------------------------------------------- one life is one run

  ghost function CoresOf(ws: seq<World>, p: ProcessId, i: nat, j: nat): (cores: seq<Core>)
    requires i <= j < |ws| && forall k :: i <= k <= j ==> p in ws[k].procs
    ensures |cores| == j - i + 1 && forall k :: 0 <= k <= j - i ==> cores[k] == ws[i + k].procs[p].core
  {
    seq(j - i + 1, k requires 0 <= k <= j - i => ws[i + k].procs[p].core)
  }

  lemma {:induction false} AliveBetween(ws: seq<World>, acts: seq<Action>, p: ProcessId, i: nat, k: nat, j: nat)
    requires IsHistory(ws, acts) && i <= k <= j < |ws|
    requires p in ws[i].procs && p in ws[j].procs
    ensures p in ws[k].procs && ws[k].procs[p].role == ws[i].procs[p].role
    decreases k
  {
    hide Step, Inv;
    if i < k {
      AliveBetween(ws, acts, p, i, k - 1, j);
      ReachableInv(ws, acts, k - 1);
      StepIsMove(ws[k - 1], acts[k - 1]);
      if p in ws[k].procs {
        var e :| Simulates(ws[k - 1], ws[k], p, e);
      } else {
        VanishedIsDead(ws[k - 1], acts[k - 1], p);
        RunRemembers(ws, acts, k, j);
        ReachableInv(ws, acts, j);
        PcHolds(ws[j], p);
      }
    }
  }

  lemma OpeningKeepsProcesses(w: World, act: Action)
    requires Opens(act) || Single(act)
    ensures Step(w, act).procs.Keys == w.procs.Keys
  {
    hide Do, ClaimDecide, BeginCheck, BindAdopt, ClaimCheck, CleanupCheck, FailCheck, RecoverySnapshot, OwnerGone,
      EnvOf, Orphan, LocalMove, BindDecide, ClaimStillOwned, Observe, CleanupOwner, CreatePending, UpgradeAttached,
      RebindAttached, FencePendingStop, DeleteExact, DeletePendingExact, Acquire, Publish, Unlock, Drop,
      SpawnStep, CrashStep, BeginPickStep, BeginLeaseStep, BindReadStep, BindObserveStep, BindAcquireStep, AckReadStep,
      RecoverReadStep, RecoverObserveStep, RecoverDeleteStep, AckDeliveryStep,
      AttachStep, BindSwapStep, BeginCreateStep, ClaimReadStep, ClaimPublishStep, ClaimFenceStep, ClaimRereadStep,
      AckDeleteStep, FailFinishStep, RecoverFinishStep, LoseOwnerStep;
  }

  lemma LookingKeepsProcesses(w: World, act: Action)
    requires Looks(act)
    ensures Step(w, act).procs.Keys == w.procs.Keys
  {
    hide Do, ClaimDecide, BeginCheck, BindAdopt, ClaimCheck, CleanupCheck, FailCheck, RecoverySnapshot, OwnerGone,
      EnvOf, Orphan, LocalMove, BindDecide, ClaimStillOwned, Observe, CleanupOwner, CreatePending, UpgradeAttached,
      RebindAttached, FencePendingStop, DeleteExact, DeletePendingExact, Acquire, Publish, Unlock, Drop,
      BeginStartStep, BindStartStep, ClaimStartStep, AckStartStep, FailStartStep,
      LocalStep, BindAnnounceStep, RecoverStartStep, ClaimAutoStep,
      AttachStep, BindSwapStep, BeginCreateStep, ClaimReadStep, ClaimPublishStep, ClaimFenceStep, ClaimRereadStep,
      AckDeleteStep, FailFinishStep, RecoverFinishStep, LoseOwnerStep, SpawnStep, CrashStep, RecoverReadStep, RecoverObserveStep,
      RecoverDeleteStep, AckDeliveryStep;
  }

  lemma ElsewhereKeepsProcesses(w: World, act: Action)
    requires Idle(act) && !Looks(act) && !act.Spawn? && !act.Crash?
    ensures Step(w, act).procs.Keys == w.procs.Keys
  {
    hide Do, ClaimDecide, BeginCheck, BindAdopt, ClaimCheck, CleanupCheck, FailCheck, RecoverySnapshot, OwnerGone,
      EnvOf, Orphan, LocalMove, BindDecide, ClaimStillOwned, Observe, CleanupOwner, CreatePending, UpgradeAttached,
      RebindAttached, FencePendingStop, DeleteExact, DeletePendingExact, Acquire, Publish, Unlock, Drop,
      BeginStartStep, BindStartStep, ClaimStartStep, AckStartStep, FailStartStep,
      LocalStep, BindAnnounceStep, RecoverStartStep, ClaimAutoStep,
      AttachStep, BindSwapStep, BeginCreateStep, ClaimReadStep, ClaimPublishStep, ClaimFenceStep, ClaimRereadStep,
      AckDeleteStep, FailFinishStep, RecoverFinishStep, LoseOwnerStep, BeginPickStep, BeginLeaseStep, BindReadStep,
          BindObserveStep,
      BindAcquireStep, AckReadStep;
  }

  lemma OwningKeepsProcesses(w: World, act: Action)
    requires !Opens(act) && !Single(act) && !Idle(act)
    ensures Step(w, act).procs.Keys == w.procs.Keys
  {
    hide Do, ClaimDecide, BeginCheck, BindAdopt, ClaimCheck, CleanupCheck, FailCheck, RecoverySnapshot, OwnerGone,
      EnvOf, Orphan, LocalMove, BindDecide, ClaimStillOwned, Observe, CleanupOwner, CreatePending, UpgradeAttached,
      RebindAttached, FencePendingStop, DeleteExact, DeletePendingExact, Acquire, Publish, Unlock, Drop,
      BeginStartStep, BindStartStep, ClaimStartStep, AckStartStep, FailStartStep,
      LocalStep, BindAnnounceStep, RecoverStartStep, ClaimAutoStep,
      SpawnStep, CrashStep, BeginPickStep, BeginLeaseStep, BindReadStep, BindObserveStep, BindAcquireStep, AckReadStep,
      RecoverReadStep, RecoverObserveStep, RecoverDeleteStep, AckDeliveryStep;
  }

  /** Only a birth brings a process, and only a crash takes one. */
  lemma StepKeepsProcesses(w: World, act: Action)
    requires !act.Spawn? && !act.Crash?
    ensures Step(w, act).procs.Keys == w.procs.Keys
  {
    hide Step;
    if Opens(act) || Single(act) {
      OpeningKeepsProcesses(w, act);
    } else if Looks(act) {
      LookingKeepsProcesses(w, act);
    } else if Idle(act) {
      ElsewhereKeepsProcesses(w, act);
    } else {
      OwningKeepsProcesses(w, act);
    }
  }

  lemma VanishedIsDead(w: World, act: Action, p: ProcessId)
    requires p in w.procs && p !in Step(w, act).procs
    ensures p in Step(w, act).dead
  {
    if !act.Spawn? && !act.Crash? {
      hide Step;
      StepKeepsProcesses(w, act);
    }
  }

  lemma PickMove(ws: seq<World>, acts: seq<Action>, p: ProcessId, j: nat) returns (e: Event)
    requires IsHistory(ws, acts) && j < |acts| && p in ws[j].procs && p in ws[j + 1].procs
    ensures Simulates(ws[j], ws[j + 1], p, e)
  {
    hide Step, Inv, Simulates;
    ReachableInv(ws, acts, j);
    StepIsMove(ws[j], acts[j]);
    e :| Simulates(ws[j], ws[j + 1], p, e);
  }

  /** A begun attempt is none that the process carried earlier. */
  lemma FreshOnceMore(ws: seq<World>, acts: seq<Action>, p: ProcessId, k: nat, j: nat, e: Event)
    requires IsHistory(ws, acts) && k <= j < |acts| && p in ws[k].procs && p in ws[j].procs && p in ws[j + 1].procs
    requires Simulates(ws[j], ws[j + 1], p, e) && e.move.DoBeginCommit?
    ensures e.move.attempt != ws[k].procs[p].core.session.attempt
  {
    assert e.move.attempt != NO_ATTEMPT;
    hide Step, Inv, Do, Enabled;
    ReachableInv(ws, acts, k);
    BasicHolds(ws[k], p);
    RunRemembers(ws, acts, k, j);
  }

  /** From any birth or later point, what a process does until any later point is one run of its core. */
  lemma {:induction false} LifeIsARun(ws: seq<World>, acts: seq<Action>, p: ProcessId, i: nat,
      j: nat) returns (events: seq<Event>)
    requires IsHistory(ws, acts) && i <= j < |ws| && forall k :: i <= k <= j ==> p in ws[k].procs
    ensures IsRun(CoresOf(ws, p, i, j), events)
    ensures ws[i].procs[p].role.Ui? ==> UiOnly(events)
    ensures FreshBegins(CoresOf(ws, p, i, j), events)
    ensures ws[j].procs[p].role == ws[i].procs[p].role
    ensures forall m {:trigger events[m]} :: 0 <= m < |events| ==> Simulates(ws[i + m], ws[i + m + 1], p, events[m])
    decreases j
  {
    hide Step, Inv, Do, Enabled;
    if i == j {
      events := [];
    } else {
      var before := LifeIsARun(ws, acts, p, i, j - 1);
      var e := PickMove(ws, acts, p, j - 1);
      events := before + [e];
      var cores := CoresOf(ws, p, i, j);
      assert cores == CoresOf(ws, p, i, j - 1) + [ws[j].procs[p].core];
      forall k | 0 <= k <= j - 1 - i && e.move.DoBeginCommit? ensures e.move.attempt != cores[k].session.attempt {
        FreshOnceMore(ws, acts, p, i + k, j - 1, e);
      }
    }
  }

  /**
   In the protocol, whatever the Extensions send and however often anyone
   crashes: an attempt that a UI process once saw Failed or Cancelled is
   Failed or Cancelled whenever that process carries it again.
   */
  lemma UiNeverRevives(ws: seq<World>, acts: seq<Action>, p: ProcessId, i: nat, j: nat, a: AttemptId)
    requires IsHistory(ws, acts) && i <= j < |ws| && p in ws[i].procs && p in ws[j].procs
    requires ws[i].procs[p].role.Ui? && ws[i].procs[p].core.session.TerminalFor(a)
    requires ws[j].procs[p].core.session.attempt == a
    ensures Terminal(ws[j].procs[p].core.session.outcome)
  {
    hide Step, Inv, Do, Enabled;
    forall k | i <= k <= j ensures p in ws[k].procs {
      AliveBetween(ws, acts, p, i, k, j);
    }
    var events := LifeIsARun(ws, acts, p, i, j);
    ReachableInv(ws, acts, i);
    BasicHolds(ws[i], p);
    FinishedAttemptNeverRevives(CoresOf(ws, p, i, j), events, 0, j - i);
  }

  // --------------------------------------- the recovery budget of a UI process

  predicate Issued(w: World, a: AttemptId) { a == NO_ATTEMPT || a in w.issuerOf }

  lemma NoneIsNotIssued(w: World)
    requires Inv(w, None)
    ensures NO_ATTEMPT !in w.issuerOf
  {
  }

  /** A recorded dead attempt is one the world has issued. */
  lemma RecoveryStaysIssued(ws: seq<World>, acts: seq<Action>, p: ProcessId, k: nat, e: Event)
    requires IsHistory(ws, acts) && k < |acts| && At(ws[k], p, Ui) && p in ws[k + 1].procs
    requires Simulates(ws[k], ws[k + 1], p, e) && Issued(ws[k], ws[k].procs[p].core.recovery.attempt)
    ensures Sane(e.move) && Issued(ws[k + 1], ws[k + 1].procs[p].core.recovery.attempt)
  {
    hide Step, Inv, Do, Enabled;
    ReachableInv(ws, acts, k);
    NoneIsNotIssued(ws[k]);
    BasicHolds(ws[k], p);
    RunRemembers(ws, acts, k, k + 1);
    CounterStep(ws[k].procs[p].core, e.env, e.move);
  }

  lemma {:induction false} RecoveryIssued(
    ws: seq<World>, acts: seq<Action>, p: ProcessId, i: nat, j: nat, events: seq<Event>, k: nat
  )
    requires IsHistory(ws, acts) && i <= k <= j < |ws| && |events| == j - i && At(ws[i], p, Ui)
    requires forall k :: i <= k <= j ==> p in ws[k].procs
    requires forall m {:trigger events[m]} :: 0 <= m < |events| ==> Simulates(ws[i + m], ws[i + m + 1], p, events[m])
    requires ws[i].procs[p].core.recovery == INITIAL.recovery
    ensures Issued(ws[k], ws[k].procs[p].core.recovery.attempt) && At(ws[k], p, Ui)
    ensures k < j ==> Sane(events[k - i].move)
    decreases k
  {
    hide Step, Inv, Do, Enabled;
    if i < k {
      RecoveryIssued(ws, acts, p, i, j, events, k - 1);
      assert Simulates(ws[i + (k - 1 - i)], ws[i + (k - 1 - i) + 1], p, events[k - 1 - i]);
      RecoveryStaysIssued(ws, acts, p, k - 1, events[k - 1 - i]);
    }
    if k < j {
      assert Simulates(ws[i + (k - i)], ws[i + (k - i) + 1], p, events[k - i]);
      RecoveryStaysIssued(ws, acts, p, k, events[k - i]);
    }
  }

  /** Process p claims a recovery of dead attempt x. */
  predicate ClaimsRecovery(w: World, act: Action, p: ProcessId, x: AttemptId) {
    && act.ClaimAutoRecovery? && act.p == p && MutexFree(w, p, Ui)
    && ClaimRecovery(w.procs[p].core, EnvOf(w, w.procs[p], act.i), act.hasProfile, Orphan(w, act.lifecycleActive)).1 == Some(x)
  }

  /** Whatever event stands for a claiming action in the run claims too. */
  lemma ClaimIsSeen(w: World, act: Action, p: ProcessId, e: Event, x: AttemptId)
    requires Inv(w, None) && ClaimsRecovery(w, act, p, x)
    requires p in Step(w, act).procs && Simulates(w, Step(w, act), p, e) && Sane(e.move)
    ensures Claims(w.procs[p].core, e.env, e.move, x)
  {
    var c := w.procs[p].core;
    var m := DoClaimRecovery(act.hasProfile, Orphan(w, act.lifecycleActive));
    var env := EnvOf(w, w.procs[p], act.i);
    NoneIsNotIssued(w);
    OrphanIsIssued(w);
    ClaimedCore(w, act);
    hide Inv, Step, Do, Enabled, Orphan;
    EnabledClaim(c, m);
    CounterStep(c, env, m);
    CounterStep(c, e.env, e.move);
    ClaimIsOne(c, env, m, x);
  }

  lemma ClaimedCore(w: World, act: Action)
    requires act.ClaimAutoRecovery? && MutexFree(w, act.p, Ui)
    ensures var pr := w.procs[act.p];
            act.p in Step(w, act).procs
            && Step(w, act).procs[act.p].core
               == Do(pr.core, EnvOf(w, pr, act.i), DoClaimRecovery(act.hasProfile, Orphan(w, act.lifecycleActive))).core
  {
    hide Do, Orphan, EnvOf, Publish, Unlock;
  }

  lemma EnabledClaim(c: Core, m: Move)
    requires m.DoClaimRecovery?
    ensures Enabled(c, m)
  {
  }

  lemma ClaimIsOne(c: Core, env: Env, m: Move, x: AttemptId)
    requires m.DoClaimRecovery? && ClaimRecovery(c, env, m.hasProfile, m.orphan).1 == Some(x)
    ensures Claims(c, env, m, x) && forall y :: Claims(c, env, m, y) <==> y == x
  {
  }

  /** How often process p claims a recovery of x between points i and j of a history. */
  ghost function ClaimsBetween(ws: seq<World>, acts: seq<Action>, p: ProcessId, x: AttemptId, i: nat, j: nat): nat
    requires i <= j <= |acts| && |ws| == |acts| + 1
    decreases j
  {
    if i == j then 0
    else ClaimsBetween(ws, acts, p, x, i, j - 1) + if ClaimsRecovery(ws[j - 1], acts[j - 1], p, x) then 1 else 0
  }

  lemma {:induction false} ClaimsAreCounted(
    ws: seq<World>, acts: seq<Action>, p: ProcessId, x: AttemptId, i: nat, j: nat, k: nat, events: seq<Event>
  )
    requires IsHistory(ws, acts) && i <= k <= j < |ws| && |events| == j - i && At(ws[i], p, Ui)
    requires forall k :: i <= k <= j ==> p in ws[k].procs
    requires forall m {:trigger events[m]} :: 0 <= m < |events| ==> Simulates(ws[i + m], ws[i + m + 1], p, events[m])
    requires ws[i].procs[p].core.recovery == INITIAL.recovery
    ensures ClaimsBetween(ws, acts, p, x, i, k) <= ClaimCount(CoresOf(ws, p, i, j), events, x, k - i)
    decreases k
  {
    hide Step, Inv, Do, Enabled, Simulates, Claims, ClaimsRecovery;
    if i < k {
      ClaimsAreCounted(ws, acts, p, x, i, j, k - 1, events);
      if ClaimsRecovery(ws[k - 1], acts[k - 1], p, x) {
        RecoveryIssued(ws, acts, p, i, j, events, k - 1);
        ReachableInv(ws, acts, k - 1);
        assert Simulates(ws[i + (k - 1 - i)], ws[i + (k - 1 - i) + 1], p, events[k - 1 - i]);
        ClaimIsSeen(ws[k - 1], acts[k - 1], p, events[k - 1 - i], x);
      }
    }
  }

  /**
   In the whole system a UI process claims at most three recoveries for one dead
   attempt in its life, whatever the Extensions, the clocks and the crashes do.
   */
  lemma UiRecoversAtMostThrice(ws: seq<World>, acts: seq<Action>, p: ProcessId, x: AttemptId, i: nat, j: nat)
    requires IsHistory(ws, acts) && i <= j < |ws| && At(ws[i], p, Ui) && p in ws[j].procs
    requires ws[i].procs[p].core.recovery == INITIAL.recovery && x != NO_ATTEMPT
    ensures ClaimsBetween(ws, acts, p, x, i, j) <= MAX_RECOVERIES
  {
    hide Step, Inv, Do, Enabled;
    forall k | i <= k <= j ensures p in ws[k].procs {
      AliveBetween(ws, acts, p, i, k, j);
    }
    var events := LifeIsARun(ws, acts, p, i, j);
    var cores := CoresOf(ws, p, i, j);
    forall m, k | 0 <= k <= m < |events| && events[m].move.DoBeginCommit?
      ensures events[m].move.attempt != cores[k].recovery.attempt
    {
      FreshForRecord(ws, acts, p, i, j, events, k, m);
    }
    forall m | 0 <= m < |events| ensures Sane(events[m].move) {
      RecoveryIssued(ws, acts, p, i, j, events, i + m);
    }
    AtMostThreeRecoveries(cores, events, x, j - i);
    ClaimsAreCounted(ws, acts, p, x, i, j, j, events);
  }

  lemma BegunIsReal(c: Core, m: Move)
    requires Enabled(c, m) && m.DoBeginCommit?
    ensures m.attempt != NO_ATTEMPT
  {
  }

  lemma FreshForRecord(
    ws: seq<World>, acts: seq<Action>, p: ProcessId, i: nat, j: nat, events: seq<Event>, k: nat, m: nat
  )
    requires IsHistory(ws, acts) && i <= j < |ws| && |events| == j - i && k <= m < |events| && At(ws[i], p, Ui)
    requires forall k :: i <= k <= j ==> p in ws[k].procs
    requires forall m {:trigger events[m]} :: 0 <= m < |events| ==> Simulates(ws[i + m], ws[i + m + 1], p, events[m])
    requires ws[i].procs[p].core.recovery == INITIAL.recovery && events[m].move.DoBeginCommit?
    ensures events[m].move.attempt != ws[i + k].procs[p].core.recovery.attempt
  {
    hide Step, Inv, Do, Enabled;
    assert Simulates(ws[i + m], ws[i + m + 1], p, events[m]);
    BegunIsReal(ws[i + m].procs[p].core, events[m].move);
    RecoveryIssued(ws, acts, p, i, j, events, i + k);
    RunRemembers(ws, acts, i + k, i + m);
  }

  // ---------------------------------------------- a visible stop mark is final

  /** The UI lane of `region` shows attempt `a` finished. */
  predicate MarkedStopped(w: World, region: ProcessId, a: AttemptId) {
    && a != NO_ATTEMPT && region in w.lanes && w.lanes[region].ui.Some?
    && w.lanes[region].ui.value.session.TerminalFor(a)
  }

  predicate LiveFor(c: Core, a: AttemptId) {
    c.session.attempt == a && !Terminal(c.session.outcome)
  }

  lemma SyncMarks(c: Core, env: Env)
    requires !env.isUi && Newer(c, env, DoSync)
    ensures Sync(c, env).core.watch.remoteUpdatedAt == env.lane.value.updatedAt
  {
  }

  lemma LifecycleMarks(c: Core, env: Env, m: Move)
    requires !env.isUi && Newer(c, env, m) && (Lifecycle(m) || m.DoTick? || Closing(m))
    ensures Do(c, env, m).core.watch.remoteUpdatedAt == env.lane.value.updatedAt
  {
    hide Sync, Apply, BindAdopt, BindPublish, CleanupSound;
    SyncMarks(c, env);
  }

  /** A move that receives a newer frame raises the high-water mark to it. */
  lemma NewerMarks(c: Core, env: Env, m: Move)
    requires !env.isUi && Newer(c, env, m)
    ensures Do(c, env, m).core.watch.remoteUpdatedAt == env.lane.value.updatedAt
  {
    hide Sync, Apply, StopSession, StartCommit, StartExternal, SetStarting, SetFailed, Tick, RecoveryCommit, CancelStart,
      RequestStop;
    if Lifecycle(m) || m.DoTick? || Closing(m) {
      LifecycleMarks(c, env, m);
    } else if m.DoBindAdopt? {
      AdoptMarks(c, env, m.attempt);
    } else {
      SyncMarks(c, env);
    }
  }

  lemma AdoptMarks(c: Core, env: Env, a: AttemptId)
    requires !env.isUi && Newer(c, env, DoBindAdopt(a))
    ensures Apply(c, env, Some(a), env.lane.value).core.watch.remoteUpdatedAt == env.lane.value.updatedAt
  {
  }

  /** Reading a finished frame at or above the mark leaves the attempt finished. */
  lemma ReadingStops(c: Core, env: Env, m: Move, a: AttemptId)
    requires !env.isUi && Enabled(c, m) && CleanupSound(c.session) && Reads(c, env, m)
    requires a != NO_ATTEMPT && env.lane.Some? && env.lane.value.session.TerminalFor(a)
    requires c.watch.remoteUpdatedAt <= env.lane.value.updatedAt
    requires c.watch.remoteUpdatedAt == env.lane.value.updatedAt && c.session.attempt == a ==> Terminal(c.session.outcome)
    ensures !LiveFor(Do(c, env, m).core, a)
  {
    hide Do, Enabled, CleanupSound;
    MovePlain(c, env, m);
    MoveKeepsBarrier(c, env, m);
    if Newer(c, env, m) {
      NewerMarks(c, env, m);
    }
  }

  /** The action makes `p` read its lane. */
  predicate ReadsLane(w: World, act: Action, p: ProcessId) {
    && At(w, p, Extension)
    && var pr := w.procs[p];
       match act
       case Local(q, m, i) => q == p && w.procs[p].pc.Free? && LocalMove(pr.role, m) && Reads(pr.core, EnvOf(w, pr, i), m)
       case BindStart(q, a, i) => q == p && w.procs[p].pc.Free? && Reads(pr.core, EnvOf(w, pr, i), DoBindAdopt(a))
       case BindAnnounce(q, i) => q == p && w.procs[p].pc.BindOwned?
       case AckStart(q, a, i) => q == p && w.procs[p].pc.Free?
       case FailStart(q, a, req, i) => q == p && w.procs[p].pc.Free? && !req
       case _ => false
  }

  lemma ReadMove(w: World, act: Action, p: ProcessId) returns (m: Move, i: Input)
    requires ReadsLane(w, act, p)
    ensures Reads(w.procs[p].core, EnvOf(w, w.procs[p], i), m) && Enabled(w.procs[p].core, m)
    ensures p in Step(w, act).procs && Step(w, act).procs[p].core == Do(w.procs[p].core, EnvOf(w, w.procs[p], i), m).core
  {
    hide Do, BeginCheck, BindAdopt, ClaimCheck, CleanupCheck, FailCheck, EnvOf, Publish, Unlock, BindDecide,
      ClaimReadStep, ClaimFenceStep, BindSwapStep, BindObserveStep, RecoverObserveStep, BeginCreateStep, FailFinishStep,
      AckDeleteStep, AckDeliveryStep, SpawnStep, CrashStep, RecoverStartStep, RecoverDeleteStep;
    match act
    case Local(_, move, input) => m, i := move, input;
    case BindStart(_, a, input) => m, i := DoBindAdopt(a), input;
    case BindAnnounce(_, input) => m, i := DoBindPublish(w.procs[p].pc.attempt, p), input;
    case AckStart(_, a, input) => m, i := DoCleanupCheck(a), input;
    case FailStart(_, a, req, input) => m, i := DoFailCheck(a, req), input;
  }

  lemma MarkHolds(w: World, p: ProcessId)
    requires Inv(w, None) && p in w.procs
    ensures MarkOk(w, w.procs[p]) && CleanupSound(w.procs[p].core.session)
  {
    assert ProcOk(w, p, None);
  }

  /** An Extension that reads a stop mark for `a` is not, after that step, alive in `a`. */
  lemma MarkStopsReader(w: World, act: Action, p: ProcessId, a: AttemptId)
    requires Inv(w, None) && ReadsLane(w, act, p) && MarkedStopped(w, w.procs[p].region, a)
    ensures p in Step(w, act).procs && !LiveFor(Step(w, act).procs[p].core, a)
  {
    hide Inv, Step, Do, Enabled, Reads;
    var m, i := ReadMove(w, act, p);
    MarkHolds(w, p);
    ReadingStops(w.procs[p].core, EnvOf(w, w.procs[p], i), m, a);
  }

  /** The lane's own UI process, while it lives, still carries the attempt. */
  predicate Carries(w: World, region: ProcessId, a: AttemptId) {
    region in w.procs ==> w.procs[region].core.session.attempt == a
  }

  lemma MarkStep(w: World, act: Action, region: ProcessId, a: AttemptId)
    requires Inv(w, None) && MarkedStopped(w, region, a) && Carries(w, region, a) && Carries(Step(w, act), region, a)
    ensures MarkedStopped(Step(w, act), region, a)
  {
    assert LaneOk(w, region);
    if region in w.procs {
      assert ProcOk(w, region, None);
    }
    hide Inv, Step, Do, Enabled;
    StepIsMove(w, act);
    var w2 := Step(w, act);
    if region in w.procs && region in w2.procs {
      var e :| Simulates(w, w2, region, e);
      MoveKeepsBarrier(w.procs[region].core, e.env, e.move);
      UiFrames(w.procs[region].core, e.env, e.move);
    }
  }

  /** A UI process publishes frames of the attempt it carries. */
  lemma UiFrames(c: Core, env: Env, m: Move)
    requires env.isUi && Enabled(c, m) && CleanupSound(c.session)
    ensures forall k :: 0 <= k < |Do(c, env, m).published| ==>
              Do(c, env, m).published[k].session.attempt == if m.DoBeginCommit? then m.attempt else c.session.attempt
    ensures m.DoBeginCommit? ==> Do(c, env, m).core.session.attempt != c.session.attempt
  {
    if m.DoBeginCommit? {
    } else if m.DoTakeExtensionLease? || m.DoAttachLane? {
    } else {
      hide Do, Enabled;
      MovePlain(c, env, m);
    }
  }

  lemma {:induction false} MarkPersists(ws: seq<World>, acts: seq<Action>, i: nat, j: nat, region: ProcessId, a: AttemptId)
    requires IsHistory(ws, acts) && i <= j < |ws| && MarkedStopped(ws[i], region, a)
    requires forall k :: i <= k <= j ==> Carries(ws[k], region, a)
    ensures MarkedStopped(ws[j], region, a)
    decreases j
  {
    hide Inv, Step, MarkedStopped;
    if i < j {
      MarkPersists(ws, acts, i, j - 1, region, a);
      ReachableInv(ws, acts, j - 1);
      assert Carries(ws[j - 1], region, a) && Carries(ws[j], region, a);
      MarkStep(ws[j - 1], acts[j - 1], region, a);
    }
  }

  /**
   Once the stop mark for `a` is in the UI lane, no Extension attached to that
   lane comes out of a later step that reads it alive in `a`: it commits neither
   Pending nor Connected, whoever crashes and whatever else is published, until
   the UI process begins another attempt.
   */
  lemma CancelIsFinal(
    ws: seq<World>, acts: seq<Action>, i: nat, j: nat, p: ProcessId, region: ProcessId, a: AttemptId
  )
    requires IsHistory(ws, acts) && i <= j < |acts|
    requires At(ws[j], p, Extension) && ws[j].procs[p].region == region && ReadsLane(ws[j], acts[j], p)
    requires MarkedStopped(ws[i], region, a)
    requires forall k :: i <= k <= j ==> Carries(ws[k], region, a)
    ensures p in ws[j + 1].procs && !LiveFor(ws[j + 1].procs[p].core, a)
  {
    hide Inv, Step, MarkedStopped, ReadsLane, LiveFor;
    MarkPersists(ws, acts, i, j, region, a);
    ReachableInv(ws, acts, j);
    MarkStopsReader(ws[j], acts[j], p, a);
  }
}
