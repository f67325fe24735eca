/** Safety of the ownership protocol over every history of steps and crashes. */
module OwnershipTheorems {
  import opened Wrappers
  import opened OwnerJournal
  import opened PlatformState
  import opened SessionMoves
  import opened SessionTheorems
  import opened MoveFacts
  import opened OwnershipWorld
  import opened OwnershipInvariant
  import opened OwnershipSteps
  import opened OwnershipRaces
  import opened OwnershipClosing

  /** Every action keeps the invariant. */
  lemma StepInv(w: World, a: Action)
    requires Inv(w, None)
    ensures Inv(Step(w, a), None)
  {
    hide Inv, SpawnStep, CrashStep, AttachStep, LocalStep, BeginStartStep, BeginPickStep, BeginLeaseStep, BeginCreateStep,
      BindStartStep, BindReadStep, BindObserveStep, BindAcquireStep, BindSwapStep, BindAnnounceStep, ClaimStartStep,
      ClaimReadStep, ClaimPublishStep, ClaimFenceStep, ClaimRereadStep, AckStartStep, AckReadStep, AckDeleteStep,
      FailStartStep, FailFinishStep, RecoverStartStep, RecoverReadStep, RecoverObserveStep, RecoverDeleteStep,
      RecoverFinishStep, LoseOwnerStep, ClaimAutoStep, AckDeliveryStep;
    match a
    case Spawn(p, role) => SpawnInv(w, p, role);
    case Crash(p) => CrashInv(w, p);
    case Attach(p, region) => AttachInv(w, p, region);
    case Local(p, m, i) => LocalInv(w, p, m, i);
    case BeginStart(p, epoch, i) => BeginStartInv(w, p, epoch, i);
    case BeginPick(p, attempt) => BeginPickInv(w, p, attempt);
    case BeginLease(p) => BeginLeaseInv(w, p);
    case BeginCreate(p, i) => BeginCreateInv(w, p, i);
    case BindStart(p, attempt, i) => BindStartInv(w, p, attempt, i);
    case BindReadJournal(p) => BindReadInv(w, p);
    case BindObserve(p) => BindObserveInv(w, p);
    case BindAcquire(p) => BindAcquireInv(w, p);
    case BindSwap(p) => BindSwapInv(w, p);
    case BindAnnounce(p, i) => BindAnnounceInv(w, p, i);
    case ClaimStart(p, epoch, i) => ClaimStartInv(w, p, epoch, i);
    case ClaimReadJournal(p) => ClaimReadInv(w, p);
    case ClaimPublish(p, i) => ClaimPublishInv(w, p, i);
    case ClaimFence(p) => ClaimFenceInv(w, p);
    case ClaimReread(p) => ClaimRereadInv(w, p);
    case AckStart(p, attempt, i) => AckStartInv(w, p, attempt, i);
    case AckRead(p) => AckReadInv(w, p);
    case AckDelete(p, i) => AckDeleteInv(w, p, i);
    case FailStart(p, attempt, req, i) => FailStartInv(w, p, attempt, req, i);
    case FailFinish(p, i) => FailFinishInv(w, p, i);
    case RecoverStart(p, attempt, i) => RecoverStartInv(w, p, attempt, i);
    case RecoverRead(t) => RecoverReadInv(w, t);
    case RecoverObserve(t) => RecoverObserveInv(w, t);
    case RecoverDelete(t) => RecoverDeleteInv(w, t);
    case RecoverFinish(t, i) => RecoverFinishInv(w, t, i);
    case LoseOwner(p, i) => LoseOwnerInv(w, p, i);
    case ClaimAutoRecovery(p, hasProfile, active, i) => ClaimAutoInv(w, p, hasProfile, active, i);
    case AckDelivery(p, region, attempt, wall) => AckDeliveryInv(w, p, region, attempt, wall);
  }

  lemma {:induction false} ReachableInv(ws: seq<World>, acts: seq<Action>, k: nat)
    requires IsHistory(ws, acts) && k < |ws|
    ensures Inv(ws[k], None)
  {
    hide Inv, Step;
    if k == 0 {
      InitInv();
    } else {
      ReachableInv(ws, acts, k - 1);
      StepInv(ws[k - 1], acts[k - 1]);
    }
  }

  // --------------------------------------------------------- owner exclusivity

  /** Process p finished binding attempt `a` and still holds its Extension lease. */
  predicate Bound(w: World, p: ProcessId, a: AttemptId) {
    p in w.procs && w.procs[p].core.extensionLease == Some(a)
  }

  /** A bound Extension is exactly the journal's Attached owner, so there is at most one. */
  lemma BoundOwnerIsTheJournals(ws: seq<World>, acts: seq<Action>, k: nat, p: ProcessId, a: AttemptId)
    requires IsHistory(ws, acts) && k < |ws| && Bound(ws[k], p, a)
    ensures ws[k].journal.AttachedTo(a, p)
    ensures forall q, b :: Bound(ws[k], q, b) ==> q == p && b == a
  {
    ReachableInv(ws, acts, k);
    PcHolds(ws[k], p);
    forall q, b | Bound(ws[k], q, b) ensures q == p && b == a {
      PcHolds(ws[k], q);
    }
  }

  // ------------------------------------------------------------- the past only grows

  /** Nothing recorded is forgotten. */
  ghost predicate Remembers(w: World, w': World) {
    && w.owners <= w'.owners && w.fenced <= w'.fenced && w.retired <= w'.retired && w.dead <= w'.dead
    && forall b :: b in w.issuerOf ==> b in w'.issuerOf && w'.issuerOf[b] == w.issuerOf[b]
  }

  lemma ActStore()
    ensures forall w: World, p, m, i, pc {:trigger Act(w, p, m, i, pc)} :: p in w.procs ==>
              && Act(w, p, m, i, pc).journal == w.journal && Act(w, p, m, i, pc).owners == w.owners
              && Act(w, p, m, i, pc).fenced == w.fenced && Act(w, p, m, i, pc).retired == w.retired
              && Act(w, p, m, i, pc).dead == w.dead && Act(w, p, m, i, pc).issuerOf == w.issuerOf
  {
  }

  /** The actions that can change the journal. */
  predicate Swaps(act: Action) {
    act.BeginCreate? || act.BindSwap? || act.ClaimFence? || act.AckDelete? || act.FailFinish? || act.RecoverDelete?
  }

  lemma QuietClaimStep(w: World, act: Action)
    requires act.ClaimStart? || act.ClaimReadJournal? || act.ClaimPublish? || act.ClaimReread?
    ensures Step(w, act).journal == w.journal && Remembers(w, Step(w, act)) && Step(w, act).issuerOf == w.issuerOf
  {
    hide Act, Do, ClaimDecide, ClaimCheck, EnvOf, ClaimStillOwned;
    ActStore();
  }

  lemma QuietUiStep(w: World, act: Action)
    requires act.Local? || act.BeginStart? || act.BeginPick? || act.BeginLease? || act.LoseOwner?
             || act.ClaimAutoRecovery? || act.FailStart?
    ensures Step(w, act).journal == w.journal && Remembers(w, Step(w, act)) && Step(w, act).issuerOf == w.issuerOf
  {
    hide Act, Do, BeginCheck, FailCheck, EnvOf, Orphan, LocalMove;
    ActStore();
  }

  lemma QuietStep(w: World, act: Action)
    requires !Swaps(act)
    ensures Step(w, act).journal == w.journal && Remembers(w, Step(w, act)) && Step(w, act).issuerOf == w.issuerOf
  {
    hide Act, Do, BindAdopt, CleanupCheck, RecoverySnapshot, OwnerGone, EnvOf, BindDecide, Observe, CleanupOwner,
      LocalStep, BeginStartStep, BeginPickStep, BeginLeaseStep, ClaimStartStep, ClaimReadStep, ClaimPublishStep,
      ClaimRereadStep, LoseOwnerStep, ClaimAutoStep, FailStartStep;
    if act.Spawn? || act.Crash? || act.Attach? || act.BindStart? || act.BindReadJournal? || act.BindObserve?
       || act.BindAcquire? || act.BindAnnounce? || act.AckStart? || act.AckRead? || act.RecoverStart? || act.RecoverRead?
       || act.RecoverObserve? || act.RecoverFinish? || act.AckDelivery? {
      ActStore();
    } else if act.ClaimStart? || act.ClaimReadJournal? || act.ClaimPublish? || act.ClaimReread? {
      QuietClaimStep(w, act);
    } else {
      QuietUiStep(w, act);
    }
  }

  /** An attached entry survives, except for its owner's own acknowledgement or its owner's death. */
  ghost predicate EntrySurvives(w: World, w': World, act: Action) {
    forall a, p :: w.journal.AttachedTo(a, p) && !w'.journal.AttachedTo(a, p) ==>
      p in w.dead || (act.AckDelete? && act.p == p)
  }

  lemma CreateRemembers(w: World, p: ProcessId, i: Input)
    requires Inv(w, None)
    ensures Remembers(w, BeginCreateStep(w, p, i)) && EntrySurvives(w, BeginCreateStep(w, p, i), BeginCreate(p, i))
    ensures BeginCreateStep(w, p, i).issuerOf != w.issuerOf ==> w.journal.Missing?
  {
    if At(w, p, Ui) && w.procs[p].pc.BeginLeased? {
      PcHolds(w, p);
      JournalSound(w);
      hide Inv, Act, Do;
      ActStore();
    }
  }

  lemma SwapRemembers(w: World, p: ProcessId)
    requires Inv(w, None)
    ensures Remembers(w, BindSwapStep(w, p)) && EntrySurvives(w, BindSwapStep(w, p), BindSwap(p))
    ensures BindSwapStep(w, p).issuerOf == w.issuerOf
  {
    if At(w, p, Extension) && w.procs[p].pc.BindLeased? {
      PcHolds(w, p);
      var pc := w.procs[p].pc;
      var (j, ok) :=
        if pc.path.BindFresh? then UpgradeAttached(w.journal, pc.attempt, pc.path.owner.issuer, p)
        else RebindAttached(w.journal, pc.attempt, pc.path.owner.issuer, pc.path.owner.extension.value, p);
      hide Inv, RebindAttached, UpgradeAttached;
      if ok {
        SwapShape(w, p, j);
      }
    }
  }

  lemma FenceRemembers(w: World, p: ProcessId)
    requires Inv(w, None)
    ensures Remembers(w, ClaimFenceStep(w, p)) && EntrySurvives(w, ClaimFenceStep(w, p), ClaimFence(p))
    ensures ClaimFenceStep(w, p).issuerOf == w.issuerOf
  {
    hide Inv, Act, Do;
    ActStore();
  }

  lemma AckRemembers(w: World, p: ProcessId, i: Input)
    requires Inv(w, None)
    ensures Remembers(w, AckDeleteStep(w, p, i)) && EntrySurvives(w, AckDeleteStep(w, p, i), AckDelete(p, i))
    ensures AckDeleteStep(w, p, i).issuerOf == w.issuerOf
  {
    hide Inv, Act, Do;
    ActStore();
  }

  lemma FailRemembers(w: World, p: ProcessId, i: Input)
    requires Inv(w, None)
    ensures Remembers(w, FailFinishStep(w, p, i)) && EntrySurvives(w, FailFinishStep(w, p, i), FailFinish(p, i))
    ensures FailFinishStep(w, p, i).issuerOf == w.issuerOf
  {
    hide Inv, Act, Do;
    ActStore();
  }

  /** The recovery only deletes an attached entry after proving the owner's lease released. */
  lemma RecoverRemembers(w: World, t: Task)
    requires Inv(w, None)
    ensures Remembers(w, RecoverDeleteStep(w, t)) && EntrySurvives(w, RecoverDeleteStep(w, t), RecoverDelete(t))
    ensures RecoverDeleteStep(w, t).issuerOf == w.issuerOf
  {
    if t in w.tasks && t.TaskProven? {
      TaskHolds(w, t);
      JournalSound(w);
    }
    hide Inv;
  }

  /** What every action keeps of the past, and what it may do to an attached entry. */
  lemma StepRemembers(w: World, act: Action)
    requires Inv(w, None)
    ensures Remembers(w, Step(w, act)) && EntrySurvives(w, Step(w, act), act)
    ensures Step(w, act).issuerOf != w.issuerOf ==> w.journal.Missing? && act.BeginCreate?
  {
    hide Inv, BeginCreateStep, BindSwapStep, ClaimFenceStep, AckDeleteStep, FailFinishStep, RecoverDeleteStep, Remembers;
    if !Swaps(act) {
      hide Step;
      QuietStep(w, act);
    } else {
      hide EntrySurvives;
      match act
      case BeginCreate(p, i) => CreateRemembers(w, p, i);
      case BindSwap(p) => SwapRemembers(w, p);
      case ClaimFence(p) => FenceRemembers(w, p);
      case AckDelete(p, i) => AckRemembers(w, p, i);
      case FailFinish(p, i) => FailRemembers(w, p, i);
      case RecoverDelete(t) => RecoverRemembers(w, t);
    }
  }

  lemma {:induction false} RunRemembers(ws: seq<World>, acts: seq<Action>, i: nat, j: nat)
    requires IsHistory(ws, acts) && i <= j < |ws|
    ensures Remembers(ws[i], ws[j])
    decreases j
  {
    hide Inv, Step;
    if i < j {
      RunRemembers(ws, acts, i, j - 1);
      ReachableInv(ws, acts, j - 1);
      StepRemembers(ws[j - 1], acts[j - 1]);
    }
  }

  /**
   An attached entry leaves the journal only by its owner's own acknowledgement
   or after its owner died, which is when its lease is released.
   */
  lemma {:induction false} EntryOutlivesItsOwner(ws: seq<World>, acts: seq<Action>, i: nat, j: nat, a: AttemptId, p: ProcessId)
    requires IsHistory(ws, acts) && i <= j < |ws|
    requires ws[i].journal.AttachedTo(a, p)
    requires p !in ws[j].dead
    requires forall k :: i <= k < j ==> !(acts[k].AckDelete? && acts[k].p == p)
    ensures ws[j].journal.AttachedTo(a, p) && ws[j].issuerOf == ws[i].issuerOf
    decreases j
  {
    hide Inv, Step;
    if i < j {
      ReachableInv(ws, acts, j - 1);
      StepRemembers(ws[j - 1], acts[j - 1]);
      EntryOutlivesItsOwner(ws, acts, i, j - 1, a, p);
    }
  }

  /** Hence no start succeeds while a bound owner lives and has not acknowledged its cleanup. */
  lemma NoStartBesideALivingOwner(ws: seq<World>, acts: seq<Action>, i: nat, j: nat, p: ProcessId, a: AttemptId)
    requires IsHistory(ws, acts) && i <= j < |ws| && Bound(ws[i], p, a)
    requires p !in ws[j].dead
    requires forall k :: i <= k < j ==> !(acts[k].AckDelete? && acts[k].p == p)
    ensures ws[j].journal.AttachedTo(a, p)
    ensures forall q, b :: Bound(ws[j], q, b) ==> q == p && b == a
    ensures ws[j].issuerOf == ws[i].issuerOf
  {
    BoundOwnerIsTheJournals(ws, acts, i, p, a);
    EntryOutlivesItsOwner(ws, acts, i, j, a, p);
    forall q, b | Bound(ws[j], q, b) ensures q == p && b == a {
      BoundOwnerIsTheJournals(ws, acts, j, q, b);
    }
  }

  // --------------------------------------------------- the stop / attach race

  lemma RaceRecorded(ws: seq<World>, acts: seq<Action>, k: nat)
    requires IsHistory(ws, acts) && k < |ws|
    ensures var j := ws[k].journal; j.Present? ==>
              && (j.owner.phase.Stopping? ==> j.owner.attempt in ws[k].fenced)
              && (j.owner.extension.Some? ==> (j.owner.attempt, j.owner.extension.value) in ws[k].owners)
    ensures forall o :: o in ws[k].owners ==> o.0 !in ws[k].fenced
  {
    ReachableInv(ws, acts, k);
    forall o | o in ws[k].owners ensures o.0 !in ws[k].fenced {
      assert OwnerOk(ws[k], o);
    }
  }

  /**
   Of Pending -> Stopping and Pending -> Attached at most one ever happens to an
   attempt: a history that once says Stopping never says Attached, before or after.
   */
  lemma ExactlyOneWins(ws: seq<World>, acts: seq<Action>, i: nat, j: nat, a: AttemptId, p: ProcessId)
    requires IsHistory(ws, acts) && i < |ws| && j < |ws|
    requires ws[i].journal.Present? && ws[i].journal.owner.attempt == a && ws[i].journal.owner.phase.Stopping?
    ensures !ws[j].journal.AttachedTo(a, p) && !Bound(ws[j], p, a)
  {
    hide Step;
    var last := if i < j then j else i;
    RunRemembers(ws, acts, i, last);
    RunRemembers(ws, acts, j, last);
    RaceRecorded(ws, acts, i);
    RaceRecorded(ws, acts, j);
    RaceRecorded(ws, acts, last);
    if Bound(ws[j], p, a) {
      BoundOwnerIsTheJournals(ws, acts, j, p, a);
    }
  }
}
