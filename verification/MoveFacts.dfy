/**
 What a single move may do to the fields the ownership protocol rests on:
 where an attempt, a cleanup flag, a lost lease and a high-water mark can come from.
 */
module MoveFacts {
  import opened Wrappers
  import opened OwnerJournal
  import opened PlatformState
  import opened SessionMoves

  /** The peer's lane says that attempt `a` has been cleaned up. */
  predicate LaneCleans(env: Env, a: AttemptId) {
    env.lane.Some? && env.lane.value.session.cleanup && env.lane.value.session.attempt == a
  }

  /** `closed` is an attempt whose journal entry the caller has just deleted, or none. */
  predicate SessionFrom(c: Core, env: Env, closed: AttemptId, s: Session) {
    && (s.attempt == c.session.attempt || (!env.isUi && StartFrame(env.lane, s.attempt)))
    && (s.cleanup ==> || (c.session.cleanup && s.attempt == c.session.attempt)
                      || LaneCleans(env, s.attempt)
                      || (closed != NO_ATTEMPT && s.attempt == closed))
  }

  ghost predicate FramesFrom(c: Core, env: Env, closed: AttemptId, e: Eff) {
    forall k :: 0 <= k < |e.published| ==>
      && SessionFrom(c, env, closed, e.published[k].session)
      && c.updatedAt < e.published[k].updatedAt <= e.core.updatedAt
      && (e.published[k].session.attempt == e.core.session.attempt && Terminal(e.published[k].session.outcome)
          ==> Terminal(e.core.session.outcome))
  }

  /** The mark only moves to the lane's frame, and then a terminal frame has been applied. */
  predicate MarkFrom(c: Core, env: Env, d: Core) {
    || d.watch.remoteUpdatedAt == c.watch.remoteUpdatedAt
    || (&& env.lane.Some?
        && d.watch.remoteUpdatedAt == env.lane.value.updatedAt > c.watch.remoteUpdatedAt
        && (env.lane.value.session.attempt == d.session.attempt && Terminal(env.lane.value.session.outcome)
            ==> Terminal(d.session.outcome)))
  }

  /** An Extension lease is only given up by a cleaned-up session. */
  predicate LeaseFrom(c: Core, env: Env, closed: AttemptId, d: Core) {
    || d.extensionLease == c.extensionLease
    || (d.extensionLease.None?
        && (c.session.cleanup || LaneCleans(env, d.session.attempt)
            || (closed != NO_ATTEMPT && d.session.attempt == closed)))
  }

  ghost predicate Plain(c: Core, env: Env, closed: AttemptId, e: Eff) {
    && SessionFrom(c, env, closed, e.core.session)
    && FramesFrom(c, env, closed, e)
    && e.core.updatedAt >= c.updatedAt
    && MarkFrom(c, env, e.core)
    && LeaseFrom(c, env, closed, e.core)
  }

  lemma ApplyPlain(c: Core, env: Env, expected: Option<AttemptId>, f: Frame)
    requires CleanupSound(c.session) && env.lane == Some(f)
    requires expected.Some? ==> StartFrame(env.lane, expected.value)
    ensures Plain(c, env, NO_ATTEMPT, Apply(c, env, expected, f))
  {
    var c1 := Seen(c, env, expected, f);
    if Matches(c1.session, f.session) {
      MergeKeepsBarrier(c1.session, env.isUi, f.session);
    }
  }

  lemma SyncPlain(c: Core, env: Env)
    requires CleanupSound(c.session)
    ensures Plain(c, env, NO_ATTEMPT, Sync(c, env))
  {
    hide Apply;
    if env.lane.Some? {
      ApplyPlain(c, env, None, env.lane.value);
    }
  }

  /** Persisting a local change after a sync stays plain. */
  lemma PersistPlain(c: Core, env: Env, closed: AttemptId, e: Eff)
    requires Plain(c, env, closed, e)
    ensures forall d: Core {:trigger ThenPersist(e, d, env)} ::
              && SessionFrom(c, env, closed, d.session)
              && d.updatedAt == e.core.updatedAt
              && d.session.attempt == e.core.session.attempt
              && (Terminal(e.core.session.outcome) ==> Terminal(d.session.outcome))
              && d.watch.remoteUpdatedAt == e.core.watch.remoteUpdatedAt
              && (d.extensionLease == e.core.extensionLease || LeaseFrom(c, env, closed, d))
              ==> Plain(c, env, closed, ThenPersist(e, d, env))
  {
  }

  /** The attempt whose deletion from the journal the move follows. */
  function Closed(c: Core, m: Move): AttemptId {
    match m
    case DoRecoveryCommit(a) => a
    case DoCleanupCommit => c.session.attempt
    case DoFailCommit(req) => if req then c.session.attempt else NO_ATTEMPT
    case _ => NO_ATTEMPT
  }

  lemma WeakenPlain(c: Core, env: Env, closed: AttemptId, e: Eff)
    requires Plain(c, env, NO_ATTEMPT, e)
    ensures Plain(c, env, closed, e)
  {
  }

  lemma LifecyclePlain(c: Core, env: Env, m: Move)
    requires CleanupSound(c.session) && Lifecycle(m)
    ensures Plain(c, env, NO_ATTEMPT, Do(c, env, m))
  {
    hide Sync, Apply, BindAdopt, BindPublish, Tick, RequestStop, RecoveryCommit, CancelStart, CleanupSound, ThenPersist;
    SyncPlain(c, env);
    PersistPlain(c, env, NO_ATTEMPT, Sync(c, env));
  }

  lemma TickPlain(c: Core, env: Env, a: AttemptId, free: bool)
    requires CleanupSound(c.session)
    ensures Plain(c, env, NO_ATTEMPT, Tick(c, env, a, free).0)
  {
    hide Sync, Apply, ThenPersist;
    SyncPlain(c, env);
    PersistPlain(c, env, NO_ATTEMPT, Sync(c, env));
  }

  lemma ClosingPlain(c: Core, env: Env, m: Move)
    requires Enabled(c, m) && CleanupSound(c.session) && Closing(m)
    ensures Plain(c, env, Closed(c, m), Do(c, env, m))
  {
    hide Sync, Apply, BindAdopt, BindPublish, Tick, StopSession, StartCommit, StartExternal, SetStarting, SetFailed,
      ThenPersist;
    SyncPlain(c, env);
    WeakenPlain(c, env, Closed(c, m), Sync(c, env));
    PersistPlain(c, env, Closed(c, m), Sync(c, env));
  }

  lemma BindPlain(c: Core, env: Env, a: AttemptId)
    requires CleanupSound(c.session)
    ensures Plain(c, env, NO_ATTEMPT, BindAdopt(c, env, a).0)
  {
    hide Apply;
    if env.lane.Some? && StartFrame(env.lane, a) {
      ApplyPlain(c, env, Some(a), env.lane.value);
    }
  }

  lemma AnnouncePlain(c: Core, env: Env, a: AttemptId, self: ProcessId)
    requires CleanupSound(c.session)
    ensures Plain(c, env, NO_ATTEMPT, BindPublish(c, env, a, self).0)
  {
    hide Sync, Apply, ThenPersist;
    SyncPlain(c, env);
    PersistPlain(c, env, NO_ATTEMPT, Sync(c, env));
  }

  /** Moves that publish one local change without reading the lane. */
  predicate Unread(m: Move) {
    m.DoCleanupCommit? || m.DoFailCommit? || m.DoClaimMark? || m.DoStopFinish? || m.DoNativeExit? || m.DoRepublish?
    || m.DoOwnerLost?
  }

  lemma UnreadPlain(c: Core, env: Env, m: Move)
    requires Enabled(c, m) && CleanupSound(c.session) && Unread(m)
    ensures Plain(c, env, Closed(c, m), Do(c, env, m))
  {
    hide Sync, Apply, BindAdopt, BindPublish, Tick, StopSession, StartCommit, StartExternal, SetStarting, SetFailed,
      RecoveryCommit, CancelStart, RequestStop;
  }

  lemma MovePlain(c: Core, env: Env, m: Move)
    requires Enabled(c, m) && CleanupSound(c.session)
    requires !m.DoBeginCommit? && !m.DoTakeExtensionLease? && !m.DoAttachLane?
    ensures Plain(c, env, Closed(c, m), Do(c, env, m))
  {
    hide Sync, Apply, BindAdopt, BindPublish, Tick, StopSession, StartCommit, StartExternal, SetStarting, SetFailed,
      RecoveryCommit, CancelStart, RequestStop, CleanupCommit, FailCommit, ClaimMark, StopFinish, NativeExit, OwnerLost;
    if Unread(m) {
      UnreadPlain(c, env, m);
    } else if Lifecycle(m) {
      LifecyclePlain(c, env, m);
    } else if m.DoTick? {
      TickPlain(c, env, m.attempt, m.operationFree);
    } else if Closing(m) {
      ClosingPlain(c, env, m);
    } else if m.DoBindAdopt? {
      BindPlain(c, env, m.attempt);
    } else if m.DoBindPublish? {
      AnnouncePlain(c, env, m.attempt, m.self);
    } else {
      SyncPlain(c, env);
    }
  }
}
