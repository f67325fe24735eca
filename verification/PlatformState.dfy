/**
 The platform-session part of CoreState (lib.rs) as a value, and every
 transition of it as a function.

 One `Core` is what a process keeps under its state mutex. A transition takes
 what the process observes while it holds that mutex (`Env`: the peer's lane,
 the monotonic clock, the wall clock, the native worker) and returns the new
 core together with the frames it published, oldest first. The class
 PlatformCore.CoreHandle is proved against these functions.
 */
module PlatformState {
  import opened Wrappers
  import opened OwnerJournal

  const STALE_AFTER: nat := 15_000      // milliseconds
  const WAKE_GRACE: nat := 6_000
  const FIRST_BACKOFF: nat := 10_000
  const SECOND_BACKOFF: nat := 30_000
  const MAX_RECOVERIES: nat := 3
  const U64_MAX: nat := 0xFFFF_FFFF_FFFF_FFFF

  datatype Outcome = Idle | Pending | Connected | Failed | Cancelled
  datatype Engine = Meow | Mihomo | SingBox
  datatype Native = NativeRunning | NativeFailed | NativeStopped

  predicate Terminal(o: Outcome) { o.Failed? || o.Cancelled? }

  /** The fields that travel in a frame. `owner` is the Extension's identity. */
  datatype Session = Session(
    attempt: AttemptId, outcome: Outcome, delivery: bool, attached: bool, stopRequested: bool,
    owner: ProcessId, cleanup: bool, starting: bool, running: bool, engine: Option<Engine>)
  {
    /** An attempt that still owes work: what ensure_platform_attempt_active accepts. */
    predicate Active(a: AttemptId) {
      a != NO_ATTEMPT && attempt == a && attached && (outcome.Pending? || outcome.Connected?)
    }

    predicate TerminalFor(a: AttemptId) { attempt == a && Terminal(outcome) }
  }

  datatype Frame = Frame(session: Session, updatedAt: nat)

  /** Liveness of the peer, on the monotonic clock. */
  datatype Watch = Watch(remoteUpdatedAt: nat, seenAt: Option<nat>, staleSince: Option<nat>, recoverable: bool)

  datatype Recovery = Recovery(pending: bool, attempt: AttemptId, attempts: nat, notBefore: Option<nat>)

  /** The typed intent and the OS-stop fence; `epoch` 0 is an open fence. */
  datatype StopFence = StopFence(intent: nat, epoch: nat, attempt: AttemptId, inFlight: bool)

  datatype Core = Core(
    session: Session, updatedAt: nat, watch: Watch, recovery: Recovery, fence: StopFence,
    issuerLease: Option<AttemptId>, extensionLease: Option<AttemptId>)

  datatype Env = Env(isUi: bool, lane: Option<Frame>, now: nat, wall: nat, native: Native)

  datatype Eff = Eff(core: Core, published: seq<Frame>)

  const INITIAL_SESSION := Session(NO_ATTEMPT, Idle, false, false, false, NO_PROCESS, false, false, false, None)

  const INITIAL := Core(
    INITIAL_SESSION, 0, Watch(0, None, None, false), Recovery(false, NO_ATTEMPT, 0, None),
    StopFence(0, 0, NO_ATTEMPT, false), None, None)

  function FrameOf(c: Core): Frame { Frame(c.session, c.updatedAt) }

  function Quiet(c: Core): Eff { Eff(c, []) }

  /** persist_platform_vpn_state_locked: strictly newer revision, then publish. */
  function Persist(c: Core, env: Env): Eff {
    var next := c.(updatedAt := if env.wall > c.updatedAt + 1 then env.wall else c.updatedAt + 1);
    Eff(next, [FrameOf(next)])
  }

  /** Persist after what has already been published by this transition. */
  function ThenPersist(e: Eff, c: Core, env: Env): Eff {
    var p := Persist(c, env);
    Eff(p.core, e.published + p.published)
  }

  // ------------------------------------------------- receiving a peer frame

  function ApplyFailure(c: Core): Core {
    c.(session := c.session.(starting := false, running := false, outcome := Failed),
       watch := c.watch.(staleSince := None))
  }

  predicate WasConnected(s: Session) { s.running && s.outcome.Connected? && !s.stopRequested }

  function RecordDead(c: Core, wasConnected: bool): Core {
    if wasConnected && c.recovery.attempt != c.session.attempt
    then c.(recovery := Recovery(true, c.session.attempt, 0, None))
    else c
  }

  predicate HeartbeatFrozen(c: Core, env: Env, remoteRunning: bool, advanced: bool) {
    && env.isUi && c.session.running && remoteRunning && !advanced
    && c.watch.seenAt.Some? && env.now >= c.watch.seenAt.value + STALE_AFTER
  }

  /** platform_heartbeat_watchdog_expired: the new watch, and whether it expired. */
  function Watchdog(c: Core, env: Env, remoteRunning: bool, advanced: bool): (Watch, bool) {
    if HeartbeatFrozen(c, env, remoteRunning, advanced) then
      var since := c.watch.staleSince.GetOr(env.now);
      (c.watch.(staleSince := Some(since)), env.now >= since + WAKE_GRACE)
    else if !remoteRunning || advanced then (c.watch.(staleSince := None), false)
    else (c.watch, false)
  }

  function ExpireHeartbeat(c: Core): Core {
    var failed := ApplyFailure(c);
    RecordDead(failed.(watch := failed.watch.(recoverable := true)), WasConnected(c.session))
  }

  function AdoptSession(s: Session, r: Session): Session {
    s.(attempt := r.attempt, outcome := r.outcome, delivery := r.delivery, attached := r.attached,
       stopRequested := r.stopRequested, owner := r.owner, cleanup := r.cleanup)
  }

  /** Field by field: a terminal frame decides, a live one only while the local attempt is live. */
  function MergeSession(s: Session, isUi: bool, r: Session): Session {
    var ends, live := Terminal(r.outcome), !Terminal(r.outcome) && !Terminal(s.outcome);
    Session(
      s.attempt,
      if ends then r.outcome else if live && r.running && s.outcome.Pending? then Connected else s.outcome,
      s.delivery || r.delivery,
      if ends then r.attached else s.attached || r.attached,
      s.stopRequested || r.stopRequested,
      if isUi then r.owner else s.owner,
      if ends then r.cleanup else if live then false else s.cleanup,
      if ends then false else if live then !r.running && r.starting else s.starting,
      if ends then false else if live then r.running else s.running,
      if ends || live then (if r.running then r.engine else None) else s.engine)
  }

  function ApplyFresh(c: Core, isUi: bool, r: Session): Core {
    var s := MergeSession(c.session, isUi, r);
    var settled := !Terminal(r.outcome) && !Terminal(c.session.outcome) && s.running;
    c.(session := s,
       recovery := if settled then c.recovery.(pending := false, notBefore := None) else c.recovery,
       issuerLease := if s.cleanup then None else c.issuerLease,
       extensionLease := if s.cleanup then None else c.extensionLease)
  }

  predicate Matches(s: Session, r: Session) { r.attempt != NO_ATTEMPT && r.attempt == s.attempt }

  /** An Extension may take over the attempt its Want names; the UI never does. */
  predicate Adopts(c: Core, isUi: bool, expected: Option<AttemptId>, r: Session) {
    !isUi && !Matches(c.session, r) && expected == Some(r.attempt) && r.attempt != NO_ATTEMPT
  }

  /** The core after adoption and after the liveness bookkeeping, before the watchdog. */
  function Seen(c: Core, env: Env, expected: Option<AttemptId>, f: Frame): Core {
    var c1 := if Adopts(c, env.isUi, expected, f.session)
              then c.(session := AdoptSession(c.session, f.session)) else c;
    if f.updatedAt > c1.watch.remoteUpdatedAt
    then c1.(watch := c1.watch.(remoteUpdatedAt := f.updatedAt, seenAt := Some(env.now), staleSince := None))
    else c1
  }

  /** apply_platform_envelope_locked. */
  function Apply(c: Core, env: Env, expected: Option<AttemptId>, f: Frame): Eff {
    var adopt := Adopts(c, env.isUi, expected, f.session);
    if !Matches(c.session, f.session) && !adopt then Quiet(c)
    else
      var advanced := f.updatedAt > c.watch.remoteUpdatedAt;
      var c1 := Seen(c, env, expected, f);
      var (watch, expired) := Watchdog(c1, env, f.session.running, advanced);
      var c2 := c1.(watch := watch);
      if expired then Persist(ExpireHeartbeat(c2), env)
      else if !advanced && !adopt then Quiet(c2)
      else Quiet(ApplyFresh(c2, env.isUi, f.session))
  }

  /** sync_platform_vpn_state_locked. */
  function Sync(c: Core, env: Env): Eff {
    if env.lane.None? then Quiet(c) else Apply(c, env, None, env.lane.value)
  }

  /** attach_platform_shared_memory: a new peer session, nothing adopted. */
  function AttachLane(c: Core): Core { c.(watch := Watch(0, None, None, false)) }

  // ------------------------------------------------ intents and the OS stop

  function AdvanceIntent(c: Core): (Core, Option<nat>) {
    if c.fence.intent >= U64_MAX then (c, None)
    else (c.(fence := c.fence.(intent := c.fence.intent + 1)), Some(c.fence.intent + 1))
  }

  predicate StopCurrent(c: Core, epoch: nat, attempt: AttemptId) {
    epoch > 0 && c.fence == StopFence(epoch, epoch, attempt, false)
  }

  function BeginOsStop(c: Core, epoch: nat, attempt: AttemptId): (Core, bool) {
    if epoch == 0 || c.fence.intent != epoch || c.fence.inFlight then (c, false)
    else if c.fence.epoch == 0 then
      if attempt != NO_ATTEMPT then (c, false)
      else (c.(fence := StopFence(c.fence.intent, epoch, NO_ATTEMPT, true)), true)
    else if c.fence.epoch != epoch || c.fence.attempt != attempt then (c, false)
    else (c.(fence := c.fence.(inFlight := true)), true)
  }

  predicate OsStopInFlight(c: Core, epoch: nat, attempt: AttemptId) {
    c.fence.epoch == epoch && c.fence.attempt == attempt && c.fence.inFlight
  }

  function CompleteOsStop(c: Core, epoch: nat, attempt: AttemptId): (Core, bool) {
    if !OsStopInFlight(c, epoch, attempt) then (c, false)
    else (c.(fence := StopFence(c.fence.intent, 0, NO_ATTEMPT, false)), true)
  }

  function FailOsStop(c: Core, epoch: nat, attempt: AttemptId): (Core, bool) {
    if !OsStopInFlight(c, epoch, attempt) then (c, false)
    else (c.(fence := c.fence.(inFlight := false)), true)
  }

  // ------------------------------------------------------- beginning a start

  /** The guards of begin_platform_vpn_start_for_intent, up to the journal read. */
  function BeginCheck(c: Core, env: Env, epoch: nat): (Eff, bool) {
    if epoch == 0 || c.fence.intent != epoch || c.fence.epoch != 0 then (Quiet(c), false)
    else
      var e := Sync(c, env);
      var s := e.core.session;
      (e, && !s.outcome.Pending?
          && (s.attempt != NO_ATTEMPT ==> s.cleanup)
          && !s.running && !env.native.NativeRunning?)
  }

  /** After create_pending_exact succeeded for the new attempt. */
  function BeginCommit(c: Core, env: Env, attempt: AttemptId): Eff {
    Persist(
      c.(session := Session(attempt, Outcome.Pending, false, false, false, NO_PROCESS, false, true, false, None),
         watch := Watch(0, None, None, false),
         issuerLease := Some(attempt), extensionLease := None),
      env)
  }

  // ---------------------------------------------------- binding an Extension

  /** validate_platform_start_envelope. */
  predicate StartFrame(lane: Option<Frame>, attempt: AttemptId) {
    && attempt != NO_ATTEMPT && lane.Some?
    && lane.value.session.attempt == attempt
    && (lane.value.session.outcome.Pending? || lane.value.session.outcome.Connected?)
  }

  function Reopen(c: Core): Core {
    c.(session := c.session.(outcome := Outcome.Pending, starting := true, running := false, cleanup := false),
       watch := c.watch.(recoverable := false))
  }

  /** bind_platform_vpn_start up to the journal read. */
  function BindAdopt(c: Core, env: Env, attempt: AttemptId): (Eff, bool) {
    if env.isUi || !StartFrame(env.lane, attempt) then (Quiet(c), false)
    else
      var e := Apply(c, env, Some(attempt), env.lane.value);
      var s := e.core.session;
      if s.attempt != attempt || Terminal(s.outcome) then (e, false)
      else if s.outcome.Connected? && !env.native.NativeRunning? then (Eff(Reopen(e.core), e.published), true)
      else (e, true)
  }

  /** publish_platform_vpn_binding_locked by process `self`. */
  function BindPublish(c: Core, env: Env, attempt: AttemptId, self: ProcessId): (Eff, bool) {
    var e := Sync(c, env);
    var s := e.core.session;
    if s.attempt != attempt then (e, false)
    else
      var changed := s.owner != self;
      var c1 := e.core.(session := s.(owner := self));
      if !s.attached then
        var c2 := c1.(session := c1.session.(delivery := true, attached := true, cleanup := false),
                      watch := c1.watch.(recoverable := false));
        (ThenPersist(e, c2, env), true)
      else if s.outcome.Pending? && s.starting && !s.running then
        (ThenPersist(e, c1.(session := c1.session.(delivery := true)), env), true)
      else if changed then (ThenPersist(e, c1, env), true)
      else (Eff(c1, e.published), true)
  }

  // -------------------------------------------------- cleanup acknowledgement

  datatype Gate = Refused | AlreadyDone | LeaseMissing | Proceed

  /** complete_platform_vpn_cleanup up to the journal read. */
  function CleanupCheck(c: Core, env: Env, attempt: AttemptId): (Eff, Gate) {
    var e := Sync(c, env);
    var s := e.core.session;
    (e, if attempt == NO_ATTEMPT || s.attempt != attempt then Refused
        else if s.running || s.starting || !Terminal(s.outcome) then Refused
        else if s.cleanup then AlreadyDone
        else if e.core.extensionLease.None? then LeaseMissing
        else Proceed)
  }

  /** The journal must name the acknowledging process, and so must the core. */
  predicate CleanupOwner(c: Core, j: Journal, attempt: AttemptId, self: ProcessId) {
    j.AttachedTo(attempt, self) && c.session.owner == self
  }

  function ClearOwnership(c: Core): Core {
    c.(session := c.session.(cleanup := true, attached := false, stopRequested := true, owner := NO_PROCESS),
       watch := c.watch.(recoverable := false), issuerLease := None, extensionLease := None)
  }

  /** After delete_exact removed the entry. */
  function CleanupCommit(c: Core, env: Env): Eff { Persist(ClearOwnership(c), env) }

  // ------------------------------------- recovery after a confirmed OS stop

  /** The snapshot each round of the recovery loop takes: done?, local unattached fence? */
  function RecoverySnapshot(c: Core, env: Env, attempt: AttemptId): (Eff, bool, bool) {
    var e := Sync(c, env);
    var s := e.core.session;
    (e, s.attempt == attempt && s.cleanup,
     s.attempt == attempt && !s.attached && s.stopRequested && Terminal(s.outcome))
  }

  /** After delete_exact: close the local attempt, unless it moved on or is done. */
  function RecoveryCommit(c: Core, env: Env, attempt: AttemptId): Eff {
    var e := Sync(c, env);
    var s := e.core.session;
    if s.attempt != attempt || s.cleanup then e
    else
      var closed := e.core.(session := s.(starting := false, running := false,
                                          outcome := if s.outcome.Failed? then Failed else Cancelled));
      ThenPersist(e, ClearOwnership(closed), env)
  }

  // ------------------------------------------------ failing and cancelling

  function FailCheck(c: Core, env: Env, attempt: AttemptId, requireUnattached: bool): (Eff, bool) {
    var e := Sync(c, env);
    var s := e.core.session;
    (e, attempt != NO_ATTEMPT && s.attempt == attempt && s.outcome.Pending? && !(requireUnattached && s.attached))
  }

  function FailCommit(c: Core, env: Env, requireUnattached: bool): Eff {
    var done := c.session.cleanup || requireUnattached;
    Persist(
      c.(session := c.session.(starting := false, running := false, outcome := Failed, cleanup := done),
         issuerLease := if done then None else c.issuerLease,
         extensionLease := if done then None else c.extensionLease),
      env)
  }

  function CancelStart(c: Core, env: Env, attempt: AttemptId): (Eff, bool) {
    var e := Sync(c, env);
    var s := e.core.session;
    if attempt == NO_ATTEMPT || s.attempt != attempt || !s.outcome.Pending? then (e, false)
    else (ThenPersist(e, e.core.(session := s.(starting := false, running := false, outcome := Cancelled)), env), true)
  }

  /** request_platform_vpn_stop. */
  function RequestStop(c: Core, env: Env, attempt: AttemptId): (Eff, bool) {
    if attempt == NO_ATTEMPT then (Quiet(c), false)
    else
      var e := Sync(c, env);
      var s := e.core.session;
      if s.attempt != attempt then (e, false)
      else if s.cleanup then (e, true)
      else if !s.attached || e.core.watch.recoverable || Terminal(s.outcome) then (e, false)
      else
        var c1 := e.core.(recovery := e.core.recovery.(pending := false, notBefore := None));
        if s.stopRequested then (Eff(c1, e.published), true)
        else (ThenPersist(e, c1.(session := s.(stopRequested := true)), env), true)
  }

  // -------------------------------------------------- claiming a stop (UI)

  function ClaimCheck(c: Core, env: Env, epoch: nat): (Eff, bool) {
    if epoch == 0 || c.fence.intent != epoch || c.fence.inFlight then (Quiet(c), false)
    else (Sync(c, env), true)
  }

  datatype Claim =
    | ClaimRefused
    | ClaimNothing                      // no owner, no retained fence
    | ClaimRetained(stale: AttemptId)   // no owner left, the fence is kept
    | ClaimCold(owner: Owner)           // an owner this core knows nothing about
    | ClaimOwned(owner: Owner)          // this core's own attempt

  function ClaimDecide(c: Core, j: Journal): Claim {
    var open := c.session.attempt == NO_ATTEMPT || c.session.cleanup;
    var retained := c.fence.epoch != 0;
    if j.Missing? then
      if !open then ClaimRefused
      else if retained then ClaimRetained(c.fence.attempt)
      else ClaimNothing
    else if retained && c.fence.attempt != j.owner.attempt then ClaimRefused
    else if !open && c.session.attempt != j.owner.attempt then ClaimRefused
    else if open then ClaimCold(j.owner)
    else ClaimOwned(j.owner)
  }

  /** The terminal mark that must be visible before Pending races Attached. */
  function ClaimMark(c: Core, env: Env): Eff {
    var s := if c.session.outcome.Pending?
             then c.session.(outcome := Cancelled, starting := false, running := false)
             else c.session;
    Persist(c.(session := s.(stopRequested := true)), env)
  }

  function ClaimCommit(c: Core, epoch: nat, attempt: AttemptId): Core {
    c.(fence := StopFence(c.fence.intent, epoch, attempt, false))
  }

  /** What the re-read accepts when the fence lost the race. */
  predicate ClaimStillOwned(j: Journal, attempt: AttemptId) {
    j.Present? && j.owner.attempt == attempt
    && ((j.owner.phase.Stopping? && j.owner.extension.None?) || (j.owner.phase.Attached? && j.owner.extension.Some?))
  }

  // ------------------------------------------- the Extension's own lifecycle

  /** stop_platform_vpn, before the native worker is joined. */
  function StopSession(c: Core, env: Env, attempt: AttemptId): (Eff, bool) {
    var e := Sync(c, env);
    var s := e.core.session;
    if s.attempt != attempt then (e, false)
    else
      var t := s.(starting := false, running := false, engine := None, stopRequested := true,
                  outcome := if s.outcome.Failed? then Failed else Cancelled);
      (ThenPersist(e, e.core.(session := t), env), true)
  }

  /** stop_platform_vpn, after the native worker was joined. */
  function StopFinish(c: Core, env: Env, attempt: AttemptId): Eff {
    var s := c.session;
    if s.attempt != attempt then Quiet(c)
    else
      Persist(c.(session := s.(starting := false, running := false, engine := None,
                               outcome := if s.outcome.Pending? then Cancelled else s.outcome)), env)
  }

  /** The commit at the end of start_vpn_inner. */
  function StartCommit(c: Core, env: Env, attempt: AttemptId): (Eff, bool) {
    var e := Sync(c, env);
    var s := e.core.session;
    if !s.Active(attempt) then (e, false)
    else
      var t := s.(starting := false, running := true, engine := Some(Meow),
                  outcome := if s.outcome.Pending? then Connected else s.outcome);
      (ThenPersist(e, e.core.(session := t), env), true)
  }

  /** start_external_platform_vpn. */
  function StartExternal(c: Core, env: Env, attempt: AttemptId, engine: Engine): (Eff, bool) {
    if engine.Meow? then (Quiet(c), false)
    else
      var e := Sync(c, env);
      var s := e.core.session;
      if !s.Active(attempt) then (e, false)
      else (ThenPersist(e, e.core.(session := s.(starting := false, running := true, engine := Some(engine),
                                                 outcome := Connected)), env), true)
  }

  function SetStarting(c: Core, env: Env, attempt: AttemptId, starting: bool): (Eff, bool) {
    var e := Sync(c, env);
    var s := e.core.session;
    if !s.Active(attempt) || (starting && !s.outcome.Pending?) then (e, false)
    else (ThenPersist(e, e.core.(session := s.(starting := starting,
                                               running := if starting then false else s.running)), env), true)
  }

  function SetFailed(c: Core, env: Env, attempt: AttemptId): (Eff, bool) {
    var e := Sync(c, env);
    if !e.core.session.Active(attempt) then (e, false)
    else (ThenPersist(e, ApplyFailure(e.core), env), true)
  }

  datatype Beat = BeatError | BeatStopping | BeatFailed | BeatDisconnected | BeatConnected | BeatStarting

  /** extension_tick; `operationFree` is whether the operation lock was taken. */
  function Tick(c: Core, env: Env, attempt: AttemptId, operationFree: bool): (Eff, Beat) {
    var e := Sync(c, env);
    var s := e.core.session;
    if s.attempt != attempt then (e, BeatError)
    else if s.stopRequested then (e, BeatStopping)
    else if Terminal(s.outcome) then (e, if s.outcome.Failed? then BeatFailed else BeatDisconnected)
    else if !s.attached then (e, BeatError)
    else if s.engine.Some? && !s.engine.value.Meow? && s.running && s.outcome.Connected? then
      (ThenPersist(e, e.core, env), BeatConnected)
    else if !operationFree then
      (ThenPersist(e, e.core, env), if s.running && s.outcome.Connected? then BeatConnected else BeatStarting)
    else
      match env.native
      case NativeRunning =>
        (ThenPersist(e, e.core.(session := s.(starting := false, running := true,
                                              outcome := if s.outcome.Pending? then Connected else s.outcome)), env),
         BeatConnected)
      case NativeFailed => (ThenPersist(e, ApplyFailure(e.core), env), BeatFailed)
      case NativeStopped =>
        if s.outcome.Pending? && s.starting then (ThenPersist(e, e.core, env), BeatStarting)
        else if s.running then (ThenPersist(e, ApplyFailure(e.core), env), BeatFailed)
        else (e, BeatDisconnected)
  }

  /** publish_native_vpn_exit, once the exited generation was confirmed. */
  function NativeExit(c: Core, env: Env, attempt: AttemptId): Eff {
    if c.session.attempt != attempt || Terminal(c.session.outcome) then Quiet(c)
    else Persist(ApplyFailure(c), env)
  }

  // ----------------------------------------------- automatic recovery (UI)

  /** refresh_platform_vpn_owner_liveness_locked under the guard of a released Extension lease. */
  function OwnerLost(c: Core, env: Env, j: Journal): Eff {
    var s := c.session;
    if !s.attached || s.cleanup || !(s.outcome.Pending? || s.outcome.Connected?) then Quiet(c)
    else if !j.AttachedTo(s.attempt, s.owner) then Quiet(c)
    else Persist(RecordDead(ApplyFailure(c), WasConnected(s)), env)
  }

  /**
   claim_platform_vpn_auto_recovery after the sync and the liveness refresh.
   `orphan` is detect_cold_orphaned_connected_vpn.
   */
  function ClaimRecovery(c: Core, env: Env, hasProfile: bool, orphan: Option<AttemptId>): (Core, Option<AttemptId>) {
    if env.native.NativeRunning? || c.session.running || c.session.starting || !hasProfile then (c, None)
    else
      var c1 :=
        if !c.recovery.pending && c.session.attempt == NO_ATTEMPT && c.recovery.attempt == NO_ATTEMPT && orphan.Some?
        then c.(recovery := Recovery(true, orphan.value, 0, None)) else c;
      var r := c1.recovery;
      if !r.pending then (c1, None)
      else if r.attempts >= MAX_RECOVERIES then (c1.(recovery := r.(pending := false, notBefore := None)), None)
      else if r.notBefore.Some? && env.now < r.notBefore.value then (c1, None)
      else (c1.(recovery := Recovery(false, r.attempt, r.attempts + 1, None)), Some(r.attempt))
  }

  /** rearm_platform_vpn_auto_recovery after a claimed recovery failed. */
  function Rearm(c: Core, env: Env): Core {
    if env.native.NativeRunning? || c.session.running || c.session.starting then c
    else if 0 < c.recovery.attempts < MAX_RECOVERIES then
      var backoff := if c.recovery.attempts == 1 then FIRST_BACKOFF else SECOND_BACKOFF;
      c.(recovery := c.recovery.(pending := true, notBefore := Some(env.now + backoff)))
    else c
  }
}
