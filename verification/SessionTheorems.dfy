/**
 What holds over every run of one core: the OS-stop fence, the heartbeat
 watchdog and the automatic-recovery budget.
 */
module SessionTheorems {
  import opened Wrappers
  import opened OwnerJournal
  import opened PlatformState
  import opened SessionMoves

  // ------------------------------------------------------- the OS-stop fence

  /** An OS stop for `a` is dispatched and neither confirmed nor failed. */
  predicate InFlight(c: Core, epoch: nat, a: AttemptId) {
    epoch != 0 && c.fence.epoch == epoch && c.fence.attempt == a && c.fence.inFlight
  }

  /** A stop of `a` was claimed or dispatched and never confirmed. */
  predicate FencedOn(c: Core, a: AttemptId) {
    c.fence.epoch != 0 && c.fence.attempt == a
  }

  predicate Resolves(m: Move, epoch: nat, a: AttemptId) {
    m == DoCompleteOsStop(epoch, a) || m == DoFailOsStop(epoch, a)
  }

  predicate ConfirmsStop(c: Core, m: Move, a: AttemptId) {
    m.DoCompleteOsStop? && m.attempt == a && CompleteOsStop(c, m.epoch, m.attempt).1
  }

  lemma SyncKeepsFence(c: Core, env: Env)
    ensures Sync(c, env).core.fence == c.fence
  {
  }

  /** The moves of the intent and of the fence itself. */
  predicate FenceMove(m: Move) {
    m.DoAdvanceIntent? || m.DoBeginOsStop? || m.DoCompleteOsStop? || m.DoFailOsStop? || m.DoClaimCommit?
  }

  lemma OtherMovesKeepFence(c: Core, env: Env, m: Move)
    requires !FenceMove(m)
    ensures Do(c, env, m).core.fence == c.fence
  {
    hide Sync, Apply;
    SyncKeepsFence(c, env);
    if m.DoBindAdopt? && env.lane.Some? {
      AdoptKeepsFence(c, env, m.attempt);
    }
  }

  lemma AdoptKeepsFence(c: Core, env: Env, a: AttemptId)
    requires env.lane.Some?
    ensures Apply(c, env, Some(a), env.lane.value).core.fence == c.fence
  {
  }

  lemma FenceMoves(c: Core, env: Env, m: Move, a: AttemptId)
    requires Enabled(c, m) && FencedOn(c, a)
    ensures !m.DoBeginCommit?
    ensures !ConfirmsStop(c, m, a) ==> FencedOn(Do(c, env, m).core, a)
    ensures c.fence.inFlight ==> !m.DoClaimCommit?
    ensures c.fence.inFlight && !Resolves(m, c.fence.epoch, a) ==> InFlight(Do(c, env, m).core, c.fence.epoch, a)
  {
    hide Sync, Apply;
    if !FenceMove(m) {
      hide Do;
      OtherMovesKeepFence(c, env, m);
    }
  }

  /**
   While an OS stop is in flight every gate answers no: no start passes its
   check, no stop is claimed, and no second OS stop is dispatched.
   */
  lemma InFlightShutsEveryGate(c: Core, env: Env, epoch: nat, a: AttemptId, any: nat, other: AttemptId)
    requires InFlight(c, epoch, a)
    ensures !BeginCheck(c, env, any).1 && !ClaimCheck(c, env, any).1 && !BeginOsStop(c, any, other).1
    ensures BeginCheck(c, env, any).0.core == c && ClaimCheck(c, env, any).0.core == c && BeginOsStop(c, any, other).0 == c
  {
  }

  /**
   The final check of a queued stop decides its dispatch: it succeeds exactly for
   a current retained fence, or for the current intent when there is no fence.
   Either way the check no longer holds afterwards.
   */
  lemma CurrentStopDispatches(c: Core, epoch: nat, a: AttemptId)
    ensures var (d, ok) := BeginOsStop(c, epoch, a);
            && (ok <==> StopCurrent(c, epoch, a)
                        || (epoch > 0 && c.fence.intent == epoch && !c.fence.inFlight && c.fence.epoch == 0 && a == NO_ATTEMPT))
            && (ok ==> !StopCurrent(d, epoch, a) && !BeginOsStop(d, epoch, a).1)
  {
  }

  lemma DispatchShuts(c: Core, env: Env, epoch: nat, a: AttemptId)
    requires BeginOsStop(c, epoch, a).1
    ensures InFlight(Do(c, env, DoBeginOsStop(epoch, a)).core, epoch, a)
  {
  }

  /**
   From a successful dispatch to its exact completion or failure the fence is
   untouched: no start begins, no stop is claimed and no second one is dispatched.
   */
  lemma {:induction false} OsStopFenceHolds(cores: seq<Core>, events: seq<Event>, i: nat, j: nat, epoch: nat, a: AttemptId)
    requires IsRun(cores, events) && i < j < |cores|
    requires events[i].move == DoBeginOsStop(epoch, a) && BeginOsStop(cores[i], epoch, a).1
    requires forall k :: i < k < j ==> !Resolves(events[k].move, epoch, a)
    ensures InFlight(cores[j], epoch, a)
    ensures forall k :: i < k < j ==> !events[k].move.DoBeginCommit? && !events[k].move.DoClaimCommit?
    ensures forall k, any: nat, other: AttemptId :: i < k <= j ==> !BeginOsStop(cores[k], any, other).1
    decreases j
  {
    hide Do, Enabled;
    if j == i + 1 {
      DispatchShuts(cores[i], events[i].env, epoch, a);
    } else {
      OsStopFenceHolds(cores, events, i, j - 1, epoch, a);
      FenceMoves(cores[j - 1], events[j - 1].env, events[j - 1].move, a);
    }
  }

  /**
   Once fenced on `a`, whatever fails or is retried, no start begins and the
   fenced attempt stays `a` until some stop of exactly `a` is confirmed.
   */
  lemma {:induction false} FailedStopKeepsFence(cores: seq<Core>, events: seq<Event>, i: nat, j: nat, a: AttemptId)
    requires IsRun(cores, events) && i <= j < |cores|
    requires FencedOn(cores[i], a)
    requires forall k :: i <= k < j ==> !ConfirmsStop(cores[k], events[k].move, a)
    ensures FencedOn(cores[j], a)
    ensures forall k :: i <= k < j ==> !events[k].move.DoBeginCommit?
    decreases j
  {
    hide Do, Enabled;
    if i < j {
      FailedStopKeepsFence(cores, events, i, j - 1, a);
      FenceMoves(cores[j - 1], events[j - 1].env, events[j - 1].move, a);
    }
  }

  // ------------------------------------------------------ the Extension's tick

  /** A tick reports Connected only for its own live, attached, running attempt, and Failed only when it is. */
  lemma TickReportsTheTruth(c: Core, env: Env, a: AttemptId, operationFree: bool)
    ensures var (e, beat) := Tick(c, env, a, operationFree);
            var s := e.core.session;
            && (beat.BeatConnected? ==> s.attempt == a && s.attached && s.running && !Terminal(s.outcome) && !s.stopRequested
                                        && e.published != [])
            && (beat.BeatFailed? ==> s.attempt == a && s.outcome.Failed?)
            && (beat.BeatStopping? <==> s.attempt == a && s.stopRequested)
  {
    hide Sync;
  }

  // -------------------------------------------------- the heartbeat watchdog

  ghost predicate Clocked(events: seq<Event>) {
    forall i, j :: 0 <= i <= j < |events| ==> events[i].env.now <= events[j].env.now
  }

  function Expected(m: Move): Option<AttemptId> {
    if m.DoBindAdopt? then Some(m.attempt) else None
  }

  /** Whether the move gets as far as reading the peer's lane. */
  predicate Reads(c: Core, env: Env, m: Move) {
    match m
    case DoBeginCheck(epoch) => epoch != 0 && c.fence.intent == epoch && c.fence.epoch == 0
    case DoClaimCheck(epoch) => epoch != 0 && c.fence.intent == epoch && !c.fence.inFlight
    case DoRequestStop(a) => a != NO_ATTEMPT
    case DoStartExternal(_, engine) => !engine.Meow?
    case DoBindAdopt(a) => !env.isUi && StartFrame(env.lane, a)
    case DoSync => true
    case DoBindPublish(_, _) => true
    case DoCleanupCheck(_) => true
    case DoRecoverySnapshot(_) => true
    case DoRecoveryCommit(_) => true
    case DoFailCheck(_, _) => true
    case DoCancel(_) => true
    case DoStopSession(_) => true
    case DoStartCommit(_) => true
    case DoSetStarting(_, _) => true
    case DoSetFailed(_) => true
    case DoTick(_, _) => true
    case _ => false
  }

  /** The move receives a frame of the attempt this core carries. */
  predicate Receives(c: Core, env: Env, m: Move) {
    && Reads(c, env, m) && env.lane.Some?
    && (Matches(c.session, env.lane.value.session) || Adopts(c, env.isUi, Expected(m), env.lane.value.session))
  }

  predicate Newer(c: Core, env: Env, m: Move) {
    Receives(c, env, m) && env.lane.value.updatedAt > c.watch.remoteUpdatedAt
  }

  /** The move observes a running peer whose last newer frame is at least 15 s old. */
  predicate Stale(c: Core, env: Env, m: Move) {
    && Receives(c, env, m) && env.isUi && c.session.running && env.lane.value.session.running
    && !Newer(c, env, m)
    && c.watch.seenAt.Some? && env.now >= c.watch.seenAt.value + STALE_AFTER
  }

  /** The move fails the session for a missing heartbeat. */
  predicate Expires(c: Core, env: Env, m: Move) {
    && Receives(c, env, m)
    && Watchdog(Seen(c, env, Expected(m), env.lane.value), env, env.lane.value.session.running, Newer(c, env, m)).1
  }

  predicate ResetsWatch(m: Move) { m.DoBeginCommit? || m.DoAttachLane? }

  /** How one move of a UI core changes what the watchdog remembers. */
  predicate WatchStep(c: Core, env: Env, m: Move, w: Watch) {
    if ResetsWatch(m) then w.seenAt == None && w.staleSince == None
    else if Newer(c, env, m) then w.seenAt == Some(env.now) && w.staleSince == None
    else
      && w.seenAt == c.watch.seenAt
      && (w.staleSince.None? || w.staleSince == c.watch.staleSince
          || (Stale(c, env, m) && w.staleSince == Some(env.now)))
  }

  lemma SyncWatchStep(c: Core, env: Env)
    requires env.isUi
    ensures WatchStep(c, env, DoSync, Sync(c, env).core.watch)
  {
  }

  lemma LifecycleWatchStep(c: Core, env: Env, m: Move)
    requires env.isUi && (Lifecycle(m) || m.DoTick?)
    ensures WatchStep(c, env, m, Do(c, env, m).core.watch)
  {
    hide Sync, Apply, BindAdopt, BindPublish, RequestStop, RecoveryCommit, CancelStart, CleanupSound;
    SyncWatchStep(c, env);
  }

  lemma MoveWatchStep(c: Core, env: Env, m: Move)
    requires env.isUi
    ensures WatchStep(c, env, m, Do(c, env, m).core.watch)
  {
    hide Sync, Apply, StopSession, StartCommit, StartExternal, SetStarting, SetFailed, Tick;
    if Lifecycle(m) || m.DoTick? {
      LifecycleWatchStep(c, env, m);
    } else {
      SyncWatchStep(c, env);
    }
  }

  ghost predicate NewerAt(cores: seq<Core>, events: seq<Event>, k: nat)
    requires k < |events| && k < |cores|
  {
    Newer(cores[k], events[k].env, events[k].move)
  }

  ghost predicate StaleAt(cores: seq<Core>, events: seq<Event>, k: nat)
    requires k < |events| && k < |cores|
  {
    Stale(cores[k], events[k].env, events[k].move)
  }

  /** No newer frame is received in the events from..to-1. */
  ghost predicate Silent(cores: seq<Core>, events: seq<Event>, from: nat, to: nat)
    requires to <= |events| && |events| <= |cores|
  {
    forall k :: from <= k < to ==> !NewerAt(cores, events, k)
  }

  /** `seenAt` and `staleSince` are backed by what the run really observed. */
  ghost predicate WatchHistory(cores: seq<Core>, events: seq<Event>, n: nat)
    requires |cores| == |events| + 1 && n < |cores|
  {
    var w := cores[n].watch;
    && (w.seenAt.Some? ==> exists k: nat :: k < n && NewerAt(cores, events, k)
                             && events[k].env.now == w.seenAt.value && Silent(cores, events, k + 1, n))
    && (w.staleSince.Some? ==> exists l: nat :: l < n && StaleAt(cores, events, l)
                                 && events[l].env.now == w.staleSince.value && Silent(cores, events, l, n))
  }

  lemma {:induction false} WatchHistoryHolds(cores: seq<Core>, events: seq<Event>, n: nat)
    requires IsRun(cores, events) && UiOnly(events) && n < |cores|
    requires cores[0].watch.seenAt.None? && cores[0].watch.staleSince.None?
    ensures WatchHistory(cores, events, n)
  {
    hide Do, Enabled, Newer, Stale;
    if n > 0 {
      WatchHistoryHolds(cores, events, n - 1);
      var c, e := cores[n - 1], events[n - 1];
      MoveWatchStep(c, e.env, e.move);
      StaleIsNotNewer(c, e.env, e.move);
      var w, v := cores[n].watch, c.watch;
      if w.seenAt.Some? {
        if NewerAt(cores, events, n - 1) {
          assert Silent(cores, events, n, n);
        } else {
          var k: nat :| k < n - 1 && NewerAt(cores, events, k)
                        && events[k].env.now == v.seenAt.value && Silent(cores, events, k + 1, n - 1);
          assert Silent(cores, events, k + 1, n);
        }
      }
      if w.staleSince.Some? {
        if StaleAt(cores, events, n - 1) && w.staleSince == Some(e.env.now) {
          assert Silent(cores, events, n - 1, n);
        } else {
          var l: nat :| l < n - 1 && StaleAt(cores, events, l)
                        && events[l].env.now == v.staleSince.value && Silent(cores, events, l, n - 1);
          assert Silent(cores, events, l, n);
        }
      }
    }
  }

  lemma StaleIsNotNewer(c: Core, env: Env, m: Move)
    ensures Stale(c, env, m) ==> !Newer(c, env, m)
  {
  }

  lemma ExpiryNeedsOldStaleness(c: Core, env: Env, m: Move)
    requires env.isUi && Expires(c, env, m)
    ensures Stale(c, env, m)
    ensures c.watch.staleSince.Some? && env.now >= c.watch.staleSince.value + WAKE_GRACE
  {
  }

  /**
   A heartbeat failure at event n is proven by two separate observations: an
   earlier one, at least 6 s before, was already stale, nothing newer arrived
   from it up to now, and no newer frame at all was received in the last 21 s.
   */
  lemma HeartbeatFailureIsProven(cores: seq<Core>, events: seq<Event>, n: nat)
    requires IsRun(cores, events) && UiOnly(events) && Clocked(events) && n < |events|
    requires cores[0].watch.seenAt.None? && cores[0].watch.staleSince.None?
    requires Expires(cores[n], events[n].env, events[n].move)
    ensures exists l: nat :: l < n && StaleAt(cores, events, l)
              && events[l].env.now + WAKE_GRACE <= events[n].env.now && Silent(cores, events, l, n + 1)
    ensures forall k: nat :: k <= n && NewerAt(cores, events, k) ==>
              events[k].env.now + STALE_AFTER + WAKE_GRACE <= events[n].env.now
  {
    hide Do, Enabled;
    var e := events[n];
    ExpiryNeedsOldStaleness(cores[n], e.env, e.move);
    WatchHistoryHolds(cores, events, n);
    var l: nat :| l < n && StaleAt(cores, events, l)
                  && events[l].env.now == cores[n].watch.staleSince.value && Silent(cores, events, l, n);
    assert Silent(cores, events, l, n + 1);
    WatchHistoryHolds(cores, events, l);
    var k0: nat :| k0 < l && NewerAt(cores, events, k0)
                   && events[k0].env.now == cores[l].watch.seenAt.value && Silent(cores, events, k0 + 1, l);
    forall k: nat | k <= n && NewerAt(cores, events, k)
      ensures events[k].env.now + STALE_AFTER + WAKE_GRACE <= events[n].env.now
    {
      assert k <= k0;
    }
  }

  // ------------------------------------------- the automatic-recovery budget

  /** Recovery was claimed for dead attempt `x` by this move. */
  predicate Claims(c: Core, env: Env, m: Move, x: AttemptId) {
    m.DoClaimRecovery? && ClaimRecovery(c, env, m.hasProfile, m.orphan).1 == Some(x)
  }

  function Backoff(attempts: nat): nat {
    if attempts == 1 then FIRST_BACKOFF else SECOND_BACKOFF
  }

  /** The attempt a dead session or a cold orphan adds to the record, if this move does that. */
  predicate Records(c: Core, m: Move, x: AttemptId) {
    && x != c.recovery.attempt
    && (x == c.session.attempt
        || (m.DoClaimRecovery? && m.orphan == Some(x) && c.recovery.attempt == NO_ATTEMPT && c.session.attempt == NO_ATTEMPT))
  }

  /** Every way one move of a UI core can change the recovery record. */
  predicate RecoveryStep(c: Core, env: Env, m: Move, r: Recovery) {
    var prev := c.recovery;
    || r == prev
    || r == prev.(pending := false, notBefore := None)
    || (Records(c, m, r.attempt) && r.attempts == 0 && r.notBefore.None? && r.attempt != NO_ATTEMPT)
    || (Records(c, m, r.attempt) && r == Recovery(false, r.attempt, 1, None) && Claims(c, env, m, r.attempt))
    || (m.DoRearm? && 0 < prev.attempts < MAX_RECOVERIES
        && r == prev.(pending := true, notBefore := Some(env.now + Backoff(prev.attempts))))
    || (Claims(c, env, m, prev.attempt) && prev.pending && prev.attempts < MAX_RECOVERIES
        && (prev.notBefore.Some? ==> env.now >= prev.notBefore.value)
        && r == Recovery(false, prev.attempt, prev.attempts + 1, None))
  }

  /** Receiving a frame keeps the record, settles it, or records a connected session that died. */
  lemma SyncRecoveryStep(c: Core, env: Env)
    requires env.isUi
    ensures var d := Sync(c, env).core;
            || d.recovery == c.recovery
            || d.recovery == c.recovery.(pending := false, notBefore := None)
            || (d.recovery == Recovery(true, c.session.attempt, 0, None) && Terminal(d.session.outcome)
                && c.session.attempt != c.recovery.attempt && c.session.attempt != NO_ATTEMPT)
  {
  }

  /** A claimed orphan is a real attempt. */
  predicate Sane(m: Move) {
    m.DoClaimRecovery? ==> m.orphan != Some(NO_ATTEMPT)
  }

  lemma LifecycleRecoveryStep(c: Core, env: Env, m: Move)
    requires env.isUi && (Lifecycle(m) || Closing(m) || m.DoTick?)
    ensures RecoveryStep(c, env, m, Do(c, env, m).core.recovery)
  {
    hide Sync, Apply, BindAdopt, BindPublish, CleanupSound, Claims;
    SyncRecoveryStep(c, env);
  }

  /** The moves that only the UI makes for recovery, and every other move. */
  lemma AnyRecoveryStep(c: Core, env: Env, m: Move)
    requires env.isUi && Enabled(c, m) && Sane(m)
    ensures RecoveryStep(c, env, m, Do(c, env, m).core.recovery)
  {
    hide Sync, Apply, StopSession, StartCommit, StartExternal, SetStarting, SetFailed, Tick, RecoveryCommit, CancelStart,
      RequestStop;
    if Lifecycle(m) || Closing(m) || m.DoTick? {
      LifecycleRecoveryStep(c, env, m);
    } else {
      SyncRecoveryStep(c, env);
    }
  }

  /** The counter moves by one claim, and falls only when another attempt is recorded. */
  lemma CounterStep(c: Core, env: Env, m: Move)
    requires env.isUi && Enabled(c, m) && Sane(m)
    ensures var r := Do(c, env, m).core.recovery;
            && (r.attempt == c.recovery.attempt ==> r.attempts >= c.recovery.attempts)
            && (r.attempt != c.recovery.attempt ==> r.attempt != NO_ATTEMPT && Records(c, m, r.attempt))
            && (r.attempt != c.recovery.attempt ==> r.attempts == if Claims(c, env, m, r.attempt) then 1 else 0)
            && (r.attempt == c.recovery.attempt ==>
                  r.attempts == c.recovery.attempts + if Claims(c, env, m, r.attempt) then 1 else 0)
    ensures forall x :: Claims(c, env, m, x) ==> Do(c, env, m).core.recovery.attempt == x
    ensures c.recovery.attempts <= MAX_RECOVERIES ==> Do(c, env, m).core.recovery.attempts <= MAX_RECOVERIES
  {
    AnyRecoveryStep(c, env, m);
    if m.DoClaimRecovery? {
      hide Sync, Apply;
    } else {
      hide Do;
    }
  }

  ghost predicate ClaimsAt(cores: seq<Core>, events: seq<Event>, k: nat, x: AttemptId)
    requires k < |events| && k < |cores|
  {
    Claims(cores[k], events[k].env, events[k].move, x)
  }

  /** How many of the first n events claim a recovery for dead attempt `x`. */
  ghost function ClaimCount(cores: seq<Core>, events: seq<Event>, x: AttemptId, n: nat): nat
    requires n <= |events| && n <= |cores|
  {
    if n == 0 then 0
    else ClaimCount(cores, events, x, n - 1) + if ClaimsAt(cores, events, n - 1, x) then 1 else 0
  }

  /** New starts never reuse an id the run has carried or recorded, and orphans are real attempts. */
  ghost predicate FreshForRecovery(cores: seq<Core>, events: seq<Event>)
    requires |cores| == |events| + 1
  {
    && FreshBegins(cores, events)
    && (forall i, j :: 0 <= j <= i < |events| && events[i].move.DoBeginCommit? ==>
          events[i].move.attempt != cores[j].recovery.attempt)
    && (forall i :: 0 <= i < |events| ==> Sane(events[i].move))
  }

  /** Either `x` is the recorded attempt and the counter is its count, or it is closed for good. */
  ghost predicate Budgeted(cores: seq<Core>, events: seq<Event>, x: AttemptId, n: nat)
    requires |cores| == |events| + 1 && n < |cores|
  {
    var c, count := cores[n], ClaimCount(cores, events, x, n);
    && c.recovery.attempts <= MAX_RECOVERIES
    && count <= MAX_RECOVERIES
    && (c.recovery.attempt == x ==> count == c.recovery.attempts)
    && (c.recovery.attempt != x && count > 0 ==>
          c.session.attempt != x && c.recovery.attempt != NO_ATTEMPT
          && exists j: nat :: j <= n && cores[j].recovery.attempt == x)
  }

  /** At most three recoveries are ever claimed for one dead attempt. */
  lemma {:induction false} AtMostThreeRecoveries(cores: seq<Core>, events: seq<Event>, x: AttemptId, n: nat)
    requires IsRun(cores, events) && UiOnly(events) && FreshForRecovery(cores, events) && n < |cores|
    requires cores[0].recovery == INITIAL.recovery && x != NO_ATTEMPT
    ensures ClaimCount(cores, events, x, n) <= MAX_RECOVERIES
    ensures Budgeted(cores, events, x, n)
  {
    hide Do, Enabled, Claims;
    if n > 0 {
      AtMostThreeRecoveries(cores, events, x, n - 1);
      var c, e := cores[n - 1], events[n - 1];
      CounterStep(c, e.env, e.move);
      UiAttemptMove(c, e.env, e.move);
      if c.recovery.attempt == x && cores[n].recovery.attempt != x {
        assert cores[n - 1].recovery.attempt == x;
      }
    }
  }

  /** The record at n was left by the rearm at j, and its deadline is that rearm's clock plus the backoff. */
  ghost predicate RearmedBy(cores: seq<Core>, events: seq<Event>, j: nat, n: nat)
    requires |cores| == |events| + 1 && n < |cores|
  {
    && j < n && events[j].move.DoRearm?
    && cores[n].recovery.notBefore == Some(events[j].env.now + Backoff(cores[n].recovery.attempts))
    && forall l :: j < l <= n ==> cores[l].recovery == cores[n].recovery
  }

  lemma {:induction false} PendingRetryWasRearmed(cores: seq<Core>, events: seq<Event>, n: nat)
    requires IsRun(cores, events) && UiOnly(events) && FreshForRecovery(cores, events) && n < |cores|
    requires cores[0].recovery == INITIAL.recovery
    ensures cores[n].recovery.pending && cores[n].recovery.attempts > 0 ==>
              exists j: nat :: RearmedBy(cores, events, j, n)
  {
    hide Do, Enabled, Claims;
    if n > 0 {
      PendingRetryWasRearmed(cores, events, n - 1);
      var c, e := cores[n - 1], events[n - 1];
      AnyRecoveryStep(c, e.env, e.move);
      if cores[n].recovery.pending && cores[n].recovery.attempts > 0 {
        if cores[n].recovery == c.recovery {
          var j: nat :| RearmedBy(cores, events, j, n - 1);
          assert RearmedBy(cores, events, j, n);
        } else {
          assert RearmedBy(cores, events, n - 1, n);
        }
      }
    }
  }

  /**
   A second or third claim for the same dead attempt comes at least 10 s,
   respectively 30 s, after the rearm that enabled it.
   */
  lemma LaterClaimsWaitForBackoff(cores: seq<Core>, events: seq<Event>, n: nat, x: AttemptId)
    requires IsRun(cores, events) && UiOnly(events) && FreshForRecovery(cores, events) && n < |events|
    requires cores[0].recovery == INITIAL.recovery
    requires ClaimsAt(cores, events, n, x) && cores[n].recovery.attempts > 0 && cores[n].recovery.attempt == x
    ensures exists j: nat :: RearmedBy(cores, events, j, n)
              && events[j].env.now + Backoff(cores[n].recovery.attempts) <= events[n].env.now
  {
    PendingRetryWasRearmed(cores, events, n);
    var j: nat :| RearmedBy(cores, events, j, n);
  }
}
