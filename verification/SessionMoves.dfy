/**
 The atomic moves of one process on its own core, and the runs they generate.

 A move is one stretch of a source method between two accesses to the shared
 owner store; `Enabled` states what the earlier stretches of the same method
 established while it kept holding the state mutex. Frames, clocks, journal
 contents and race outcomes are arbitrary inputs, so a statement about every
 run here holds under any delivery order and any behaviour of the peers.
 OwnershipRuns shows that every step of the two-process system is such a move.
 */
module SessionMoves {
  import opened Wrappers
  import opened OwnerJournal
  import opened PlatformState

  datatype Move =
    | DoSync
    | DoAttachLane
    | DoAdvanceIntent
    | DoBeginOsStop(epoch: nat, attempt: AttemptId)
    | DoCompleteOsStop(epoch: nat, attempt: AttemptId)
    | DoFailOsStop(epoch: nat, attempt: AttemptId)
    | DoBeginCheck(epoch: nat)
    | DoBeginCommit(attempt: AttemptId)
    | DoBindAdopt(attempt: AttemptId)
    | DoTakeExtensionLease(attempt: AttemptId)
    | DoBindPublish(attempt: AttemptId, self: ProcessId)
    | DoCleanupCheck(attempt: AttemptId)
    | DoCleanupCommit
    | DoRecoverySnapshot(attempt: AttemptId)
    | DoRecoveryCommit(attempt: AttemptId)
    | DoFailCheck(attempt: AttemptId, requireUnattached: bool)
    | DoFailCommit(requireUnattached: bool)
    | DoCancel(attempt: AttemptId)
    | DoRequestStop(attempt: AttemptId)
    | DoClaimCheck(epoch: nat)
    | DoClaimMark
    | DoClaimCommit(epoch: nat, attempt: AttemptId)
    | DoStopSession(attempt: AttemptId)
    | DoStopFinish(attempt: AttemptId)
    | DoStartCommit(attempt: AttemptId)
    | DoStartExternal(attempt: AttemptId, engine: Engine)
    | DoSetStarting(attempt: AttemptId, starting: bool)
    | DoSetFailed(attempt: AttemptId)
    | DoTick(attempt: AttemptId, operationFree: bool)
    | DoNativeExit(attempt: AttemptId)
    | DoRepublish
    | DoOwnerLost(journal: Journal)
    | DoClaimRecovery(hasProfile: bool, orphan: Option<AttemptId>)
    | DoRearm

  function Do(c: Core, env: Env, m: Move): Eff {
    match m
    case DoSync => Sync(c, env)
    case DoAttachLane => Quiet(AttachLane(c))
    case DoAdvanceIntent => Quiet(AdvanceIntent(c).0)
    case DoBeginOsStop(epoch, a) => Quiet(BeginOsStop(c, epoch, a).0)
    case DoCompleteOsStop(epoch, a) => Quiet(CompleteOsStop(c, epoch, a).0)
    case DoFailOsStop(epoch, a) => Quiet(FailOsStop(c, epoch, a).0)
    case DoBeginCheck(epoch) => BeginCheck(c, env, epoch).0
    case DoBeginCommit(a) => BeginCommit(c, env, a)
    case DoBindAdopt(a) => BindAdopt(c, env, a).0
    case DoTakeExtensionLease(a) => Quiet(c.(extensionLease := Some(a)))
    case DoBindPublish(a, self) => BindPublish(c, env, a, self).0
    case DoCleanupCheck(a) => CleanupCheck(c, env, a).0
    case DoCleanupCommit => CleanupCommit(c, env)
    case DoRecoverySnapshot(a) => RecoverySnapshot(c, env, a).0
    case DoRecoveryCommit(a) => RecoveryCommit(c, env, a)
    case DoFailCheck(a, req) => FailCheck(c, env, a, req).0
    case DoFailCommit(req) => FailCommit(c, env, req)
    case DoCancel(a) => CancelStart(c, env, a).0
    case DoRequestStop(a) => RequestStop(c, env, a).0
    case DoClaimCheck(epoch) => ClaimCheck(c, env, epoch).0
    case DoClaimMark => ClaimMark(c, env)
    case DoClaimCommit(epoch, a) => Quiet(ClaimCommit(c, epoch, a))
    case DoStopSession(a) => StopSession(c, env, a).0
    case DoStopFinish(a) => StopFinish(c, env, a)
    case DoStartCommit(a) => StartCommit(c, env, a).0
    case DoStartExternal(a, engine) => StartExternal(c, env, a, engine).0
    case DoSetStarting(a, starting) => SetStarting(c, env, a, starting).0
    case DoSetFailed(a) => SetFailed(c, env, a).0
    case DoTick(a, operationFree) => Tick(c, env, a, operationFree).0
    case DoNativeExit(a) => NativeExit(c, env, a)
    case DoRepublish => Persist(c, env)
    case DoOwnerLost(j) => OwnerLost(c, env, j)
    case DoClaimRecovery(hasProfile, orphan) => Quiet(ClaimRecovery(c, env, hasProfile, orphan).0)
    case DoRearm => Quiet(Rearm(c, env))
  }

  predicate Enabled(c: Core, m: Move) {
    match m
    case DoBeginCommit(a) =>
      a != NO_ATTEMPT && a != c.session.attempt && c.fence.epoch == 0
      && !c.session.outcome.Pending? && !c.session.running
      && (c.session.attempt != NO_ATTEMPT ==> c.session.cleanup)
    case DoCleanupCommit =>
      c.session.attempt != NO_ATTEMPT && Terminal(c.session.outcome)
      && !c.session.running && !c.session.starting
    case DoFailCommit(_) => c.session.attempt != NO_ATTEMPT && c.session.outcome.Pending?
    case DoRecoveryCommit(a) => a != NO_ATTEMPT
    case DoOwnerLost(j) => j.Valid()
    case DoClaimMark => c.session.attempt != NO_ATTEMPT && !c.session.cleanup
    case DoClaimCommit(epoch, a) =>
      epoch != 0 && c.fence.intent == epoch && !c.fence.inFlight
      && (c.fence.epoch != 0 ==> c.fence.attempt == a)
    case _ => true
  }

  datatype Event = Event(move: Move, env: Env)

  /** cores[i+1] results from events[i] on cores[i]. */
  ghost predicate IsRun(cores: seq<Core>, events: seq<Event>) {
    && |cores| == |events| + 1
    && forall i :: 0 <= i < |events| ==>
         Enabled(cores[i], events[i].move) && cores[i + 1] == Do(cores[i], events[i].env, events[i].move).core
  }

  /** Every attempt a run begins is one the run has not carried before. */
  ghost predicate FreshBegins(cores: seq<Core>, events: seq<Event>)
    requires |cores| == |events| + 1
  {
    forall i, j :: 0 <= j <= i < |events| && events[i].move.DoBeginCommit? ==>
      events[i].move.attempt != cores[j].session.attempt
  }

  ghost predicate UiOnly(events: seq<Event>) {
    forall i :: 0 <= i < |events| ==> events[i].env.isUi
  }

  // ------------------------------------- terminal absorption, cleanup barrier

  /** `cleanup_complete` is only ever set on a finished, idle attempt. */
  predicate CleanupSound(s: Session) {
    s.cleanup ==> s.attempt != NO_ATTEMPT && Terminal(s.outcome) && !s.starting && !s.running
  }

  ghost predicate AllSound(frames: seq<Frame>) {
    forall i :: 0 <= i < |frames| ==> CleanupSound(frames[i].session)
  }

  /** No frame shows attempt `a` alive. */
  ghost predicate AllFinished(a: AttemptId, frames: seq<Frame>) {
    forall i :: 0 <= i < |frames| && frames[i].session.attempt == a ==> Terminal(frames[i].session.outcome)
  }

  /** What every move owes: the barrier holds, is published, and finished attempts stay finished. */
  ghost predicate Keeps(s: Session, e: Eff) {
    && CleanupSound(e.core.session)
    && AllSound(e.published)
    && (Terminal(s.outcome) && e.core.session.attempt == s.attempt ==> Terminal(e.core.session.outcome))
    && (Terminal(s.outcome) ==> AllFinished(s.attempt, e.published))
  }

  lemma MergeKeepsBarrier(s: Session, isUi: bool, r: Session)
    requires Matches(s, r) && (CleanupSound(s) || s.outcome == r.outcome)
    ensures CleanupSound(MergeSession(s, isUi, r)) && MergeSession(s, isUi, r).attempt == s.attempt
    ensures Terminal(s.outcome) ==> Terminal(MergeSession(s, isUi, r).outcome)
  {
  }

  /** No frame, however malformed or late, opens the barrier or revives an attempt. */
  lemma ApplyKeepsBarrier(c: Core, env: Env, expected: Option<AttemptId>, f: Frame)
    requires CleanupSound(c.session)
    ensures Keeps(c.session, Apply(c, env, expected, f))
  {
    var c1 := Seen(c, env, expected, f);
    if Matches(c1.session, f.session) {
      MergeKeepsBarrier(c1.session, env.isUi, f.session);
    }
  }

  lemma SyncKeepsBarrier(c: Core, env: Env)
    requires CleanupSound(c.session)
    ensures Keeps(c.session, Sync(c, env))
  {
    if env.lane.Some? {
      ApplyKeepsBarrier(c, env, None, env.lane.value);
    }
  }

  lemma PersistKeepsBarrier(s: Session, e: Eff, env: Env)
    requires Keeps(s, e)
    ensures forall c: Core {:trigger ThenPersist(e, c, env)} ::
              CleanupSound(c.session)
              && (Terminal(s.outcome) && c.session.attempt == s.attempt ==> Terminal(c.session.outcome)) ==>
                Keeps(s, ThenPersist(e, c, env))
  {
  }

  lemma BindKeepsBarrier(c: Core, env: Env, a: AttemptId)
    requires CleanupSound(c.session)
    ensures Keeps(c.session, BindAdopt(c, env, a).0)
  {
    if env.lane.Some? {
      ApplyKeepsBarrier(c, env, Some(a), env.lane.value);
    }
  }

  lemma PublishKeepsBarrier(c: Core, env: Env, a: AttemptId, self: ProcessId)
    requires CleanupSound(c.session)
    ensures Keeps(c.session, BindPublish(c, env, a, self).0)
  {
    SyncKeepsBarrier(c, env);
    PersistKeepsBarrier(c.session, Sync(c, env), env);
  }

  lemma TickKeepsBarrier(c: Core, env: Env, a: AttemptId, free: bool)
    requires CleanupSound(c.session)
    ensures Keeps(c.session, Tick(c, env, a, free).0)
  {
    SyncKeepsBarrier(c, env);
    PersistKeepsBarrier(c.session, Sync(c, env), env);
  }

  /** The Extension's own lifecycle. */
  predicate Lifecycle(m: Move) {
    m.DoStopSession? || m.DoStartCommit? || m.DoStartExternal? || m.DoSetStarting? || m.DoSetFailed?
  }

  lemma LifecycleKeepsBarrier(c: Core, env: Env, m: Move)
    requires CleanupSound(c.session) && Lifecycle(m)
    ensures Keeps(c.session, Do(c, env, m))
  {
    hide Sync, BindAdopt, BindPublish, Tick, RequestStop, RecoveryCommit;
    SyncKeepsBarrier(c, env);
    PersistKeepsBarrier(c.session, Sync(c, env), env);
  }

  /** Moves that sync and then close or cancel the named attempt. */
  predicate Closing(m: Move) {
    m.DoRecoveryCommit? || m.DoCancel? || m.DoRequestStop?
  }

  lemma ClosingKeepsBarrier(c: Core, env: Env, m: Move)
    requires Enabled(c, m) && CleanupSound(c.session) && Closing(m)
    ensures Keeps(c.session, Do(c, env, m))
  {
    hide Sync, BindAdopt, BindPublish, Tick, StopSession, StartCommit, StartExternal, SetStarting, SetFailed;
    SyncKeepsBarrier(c, env);
    PersistKeepsBarrier(c.session, Sync(c, env), env);
  }

  lemma MoveKeepsBarrier(c: Core, env: Env, m: Move)
    requires Enabled(c, m) && CleanupSound(c.session)
    ensures Keeps(c.session, Do(c, env, m))
  {
    hide Sync, BindAdopt, BindPublish, Tick, StopSession, StartCommit, StartExternal, SetStarting, SetFailed,
      RecoveryCommit, CancelStart, RequestStop;
    if Lifecycle(m) {
      LifecycleKeepsBarrier(c, env, m);
    } else if Closing(m) {
      ClosingKeepsBarrier(c, env, m);
    } else if m.DoBindAdopt? {
      BindKeepsBarrier(c, env, m.attempt);
    } else if m.DoBindPublish? {
      PublishKeepsBarrier(c, env, m.attempt, m.self);
    } else if m.DoTick? {
      TickKeepsBarrier(c, env, m.attempt, m.operationFree);
    } else {
      SyncKeepsBarrier(c, env);
    }
  }

  /** Over a run: while a core carries one attempt, a finished outcome stays finished. */
  lemma {:induction false} TerminalIsAbsorbing(cores: seq<Core>, events: seq<Event>, i: nat, j: nat)
    requires IsRun(cores, events) && i <= j < |cores|
    requires CleanupSound(cores[0].session)
    requires forall k :: i <= k <= j ==> cores[k].session.attempt == cores[i].session.attempt
    requires Terminal(cores[i].session.outcome)
    ensures Terminal(cores[j].session.outcome)
    decreases j
  {
    hide Do, Enabled;
    if i < j {
      TerminalIsAbsorbing(cores, events, i, j - 1);
      BarrierOverRuns(cores, events, j - 1);
      MoveKeepsBarrier(cores[j - 1], events[j - 1].env, events[j - 1].move);
    }
  }

  /** Over a run: `cleanup_complete` always means finished, not starting and not running. */
  lemma {:induction false} BarrierOverRuns(cores: seq<Core>, events: seq<Event>, j: nat)
    requires IsRun(cores, events) && j < |cores|
    requires CleanupSound(cores[0].session)
    ensures CleanupSound(cores[j].session)
  {
    hide Do, Enabled;
    if j > 0 {
      BarrierOverRuns(cores, events, j - 1);
      MoveKeepsBarrier(cores[j - 1], events[j - 1].env, events[j - 1].move);
    }
  }

  // A UI core never adopts, so only a new start changes its attempt.

  lemma UiSyncAttempt(c: Core, env: Env)
    requires env.isUi
    ensures Sync(c, env).core.session.attempt == c.session.attempt
  {
  }

  lemma UiAttemptMove(c: Core, env: Env, m: Move)
    requires env.isUi
    ensures Do(c, env, m).core.session.attempt == if m.DoBeginCommit? then m.attempt else c.session.attempt
  {
    hide Sync, Apply;
    UiSyncAttempt(c, env);
  }

  lemma {:induction false} UiAttemptSettles(cores: seq<Core>, events: seq<Event>, i: nat, k: nat, j: nat)
    requires IsRun(cores, events) && UiOnly(events) && FreshBegins(cores, events)
    requires i <= k <= j < |cores| && cores[i].session.attempt == cores[j].session.attempt
    ensures cores[k].session.attempt == cores[i].session.attempt
    decreases j - k
  {
    hide Do, Enabled;
    if k < j {
      var e := events[j - 1];
      UiAttemptMove(cores[j - 1], e.env, e.move);
      assert !e.move.DoBeginCommit?;
      UiAttemptSettles(cores, events, i, k, j - 1);
    }
  }

  /**
   In the UI process a finished attempt never returns to Pending or Connected:
   whenever the core carries that attempt again, later, it is still finished.
   */
  lemma FinishedAttemptNeverRevives(cores: seq<Core>, events: seq<Event>, i: nat, j: nat)
    requires IsRun(cores, events) && UiOnly(events) && FreshBegins(cores, events)
    requires CleanupSound(cores[0].session)
    requires i <= j < |cores| && cores[i].session.attempt == cores[j].session.attempt
    requires Terminal(cores[i].session.outcome)
    ensures Terminal(cores[j].session.outcome)
  {
    forall k | i <= k <= j ensures cores[k].session.attempt == cores[i].session.attempt {
      UiAttemptSettles(cores, events, i, k, j);
    }
    TerminalIsAbsorbing(cores, events, i, j);
  }
}
