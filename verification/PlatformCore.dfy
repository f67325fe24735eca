/**
 CoreHandle: the methods of lib.rs that change the platform session in place,
 and the owner store they share. Each is proved against the transition functions
 of PlatformState and PlatformRuns, and beside that promises what it is for.
 Dropping a lease from the core unlocks it in the store.
 */
module PlatformCore {
  import opened Wrappers
  import opened OwnerJournal
  import opened PlatformState
  import opened PlatformRuns
  import opened PlatformLaws
  import opened SessionTheorems

  /** The journal file and the two lease inodes. */
  class OwnerStore {
    var journal: Journal
    var issuer: Lease
    var extension: Lease

    function View(): Shared
      reads this
    {
      Shared(journal, issuer, extension)
    }

    constructor ()
      ensures journal == Missing && issuer == Lease(None, None) && extension == Lease(None, None)
    {
      journal, issuer, extension := Missing, Lease(None, None), Lease(None, None);
    }

    method CreatePendingExact(attempt: AttemptId, self: ProcessId) returns (ok: bool)
      modifies this`journal
      ensures (journal, ok) == CreatePending(old(journal), attempt, self)
      ensures ok <==> attempt != NO_ATTEMPT && self != NO_PROCESS
                      && (old(journal).Missing? || old(journal) == Present(Owner(attempt, self, None, Phase.Pending)))
      ensures ok ==> journal == Present(Owner(attempt, self, None, Phase.Pending))
      ensures journal != old(journal) ==> old(journal).Missing?
    {
      var record := Owner(attempt, self, None, Phase.Pending);
      ok := false;
      if record.Valid() {
        if journal.Missing? {
          journal := Present(record);
          ok := true;
        } else {
          ok := journal.owner == record;
        }
      }
    }

    method UpgradeAttachedExact(attempt: AttemptId, issuing: ProcessId, self: ProcessId) returns (ok: bool)
      modifies this`journal
      ensures (journal, ok) == UpgradeAttached(old(journal), attempt, issuing, self)
      ensures ok <==> attempt != NO_ATTEMPT && issuing != NO_PROCESS && self != NO_PROCESS
                      && (old(journal) == Present(Owner(attempt, issuing, None, Phase.Pending))
                          || old(journal) == Present(Owner(attempt, issuing, Some(self), Phase.Attached)))
      ensures ok ==> journal == Present(Owner(attempt, issuing, Some(self), Phase.Attached))
      ensures journal != old(journal) ==>
                old(journal).Present? && old(journal.owner.phase).Pending? && old(journal.owner.extension).None?
    {
      ok := false;
      if attempt == NO_ATTEMPT || issuing == NO_PROCESS || self == NO_PROCESS {
        return;
      }
      if journal.Present? && journal.owner.attempt == attempt && journal.owner.issuer == issuing {
        if journal.owner.phase.Pending? && journal.owner.extension.None? {
          journal := Present(journal.owner.(phase := Phase.Attached, extension := Some(self)));
          ok := true;
        } else {
          ok := journal.owner.phase.Attached? && journal.owner.extension == Some(self);
        }
      }
    }

    method RebindAttachedExact(attempt: AttemptId, issuing: ProcessId, expected: ProcessId, self: ProcessId)
      returns (ok: bool)
      modifies this`journal
      ensures (journal, ok) == RebindAttached(old(journal), attempt, issuing, expected, self)
      ensures ok <==> attempt != NO_ATTEMPT && issuing != NO_PROCESS && expected != NO_PROCESS && self != NO_PROCESS
                      && (old(journal) == Present(Owner(attempt, issuing, Some(expected), Phase.Attached))
                          || old(journal) == Present(Owner(attempt, issuing, Some(self), Phase.Attached)))
      ensures ok ==> journal == Present(Owner(attempt, issuing, Some(self), Phase.Attached))
      ensures journal != old(journal) ==> old(journal).AttachedTo(attempt, expected)
    {
      ok := false;
      if attempt == NO_ATTEMPT || issuing == NO_PROCESS || expected == NO_PROCESS || self == NO_PROCESS {
        return;
      }
      if journal.Present? && journal.owner.attempt == attempt && journal.owner.issuer == issuing
         && journal.owner.phase.Attached? {
        if journal.owner.extension == Some(expected) {
          journal := Present(journal.owner.(extension := Some(self)));
          ok := true;
        } else {
          ok := journal.owner.extension == Some(self);
        }
      }
    }

    method FencePendingStopExact(attempt: AttemptId, issuing: ProcessId) returns (result: Fence)
      modifies this`journal
      ensures (journal, result) == FencePendingStop(old(journal), attempt, issuing)
      ensures result.Fenced? <==> attempt != NO_ATTEMPT && issuing != NO_PROCESS
                                  && (old(journal) == Present(Owner(attempt, issuing, None, Phase.Pending))
                                      || old(journal) == Present(Owner(attempt, issuing, None, Phase.Stopping)))
      ensures result.Fenced? ==> journal == Present(Owner(attempt, issuing, None, Phase.Stopping))
      ensures journal != old(journal) ==> result.Fenced? && old(journal) == Present(Owner(attempt, issuing, None, Phase.Pending))
      ensures result.Conflict? && old(journal).Valid() ==> attempt == NO_ATTEMPT || issuing == NO_PROCESS
    {
      if attempt == NO_ATTEMPT || issuing == NO_PROCESS {
        return Conflict;
      }
      if journal.Missing? || journal.owner.attempt != attempt || journal.owner.issuer != issuing {
        return RaceLost;
      }
      if journal.owner.extension.None? && !journal.owner.phase.Attached? {
        journal := Present(journal.owner.(phase := Phase.Stopping));
        return Fenced;
      }
      return if journal.owner.phase.Attached? && journal.owner.extension.Some? then RaceLost else Conflict;
    }

    method DeleteOwnerExact(attempt: AttemptId, expected: Option<ProcessId>) returns (ok: bool)
      modifies this`journal
      ensures (journal, ok) == DeleteExact(old(journal), attempt, expected)
      ensures ok <==> attempt != NO_ATTEMPT && expected != Some(NO_PROCESS)
                      && old(journal).Present? && old(journal.owner.attempt) == attempt
                         && old(journal.owner.extension) == expected
      ensures journal == if ok then Missing else old(journal)
    {
      ok := attempt != NO_ATTEMPT && expected != Some(NO_PROCESS)
            && journal.Present? && journal.owner.attempt == attempt && journal.owner.extension == expected;
      if ok {
        journal := Missing;
      }
    }

    method DeletePending(attempt: AttemptId) returns (ok: bool)
      modifies this`journal
      ensures (journal, ok) == DeletePendingExact(old(journal), attempt)
      ensures ok <==> attempt != NO_ATTEMPT
                      && exists issuing :: old(journal) == Present(Owner(attempt, issuing, None, Phase.Pending))
      ensures journal == if ok then Missing else old(journal)
    {
      ok := attempt != NO_ATTEMPT && journal.Present? && journal.owner.attempt == attempt
            && journal.owner.phase.Pending? && journal.owner.extension.None?;
      if ok {
        assert journal == Present(Owner(attempt, journal.owner.issuer, None, Phase.Pending));
        journal := Missing;
      }
    }

    method AcquireIssuer(attempt: AttemptId, self: ProcessId) returns (ok: bool)
      modifies this`issuer
      ensures (issuer, ok) == Acquire(old(issuer), LeaseRecord(attempt, self))
      ensures ok <==> attempt != NO_ATTEMPT && self != NO_PROCESS && old(issuer).holder.None?
      ensures issuer == if ok then Lease(Some(self), Some(LeaseRecord(attempt, self))) else old(issuer)
    {
      ok := attempt != NO_ATTEMPT && self != NO_PROCESS && issuer.holder.None?;
      if ok {
        issuer := Lease(Some(self), Some(LeaseRecord(attempt, self)));
      }
    }

    method AcquireExtension(attempt: AttemptId, self: ProcessId) returns (ok: bool)
      modifies this`extension
      ensures (extension, ok) == Acquire(old(extension), LeaseRecord(attempt, self))
      ensures ok <==> attempt != NO_ATTEMPT && self != NO_PROCESS && old(extension).holder.None?
      ensures extension == if ok then Lease(Some(self), Some(LeaseRecord(attempt, self))) else old(extension)
    {
      ok := attempt != NO_ATTEMPT && self != NO_PROCESS && extension.holder.None?;
      if ok {
        extension := Lease(Some(self), Some(LeaseRecord(attempt, self)));
      }
    }
  }

  /** CoreState's platform part, under the process's state mutex; its fields are grouped by concern. */
  class CoreHandle {
    var session: Session
    var updatedAt: nat
    var watch: Watch
    var recovery: Recovery
    var fence: StopFence
    var issuerLease: Option<AttemptId>
    var extensionLease: Option<AttemptId>
    /** Every frame published so far, oldest first. */
    var outbox: seq<Frame>
    const store: OwnerStore
    const self: ProcessId

    function View(): Core
      reads this
    {
      Core(session, updatedAt, watch, recovery, fence, issuerLease, extensionLease)
    }

    /** This object's state and everything it published are exactly what effect `e` says; dropped leases are unlocked. */
    twostate predicate Became(e: Eff)
      reads this, store
    {
      && View() == e.core && outbox == old(outbox) + e.published
      && store.View() == Kept(old(store.View()), self, old(View()), e.core)
    }

    /** The same, with what it returns, for a method that works on the shared store. */
    twostate predicate Ran<R>(new r: Run<R>, new result: R)
      reads this, store
    {
      View() == r.core && outbox == old(outbox) + r.published && store.View() == r.shared && result == r.result
    }

    constructor (shared: OwnerStore, process: ProcessId)
      ensures View() == INITIAL && outbox == [] && store == shared && self == process
    {
      store, self := shared, process;
      session, updatedAt := INITIAL_SESSION, 0;
      watch, recovery := Watch(0, None, None, false), Recovery(false, NO_ATTEMPT, 0, None);
      fence := StopFence(0, 0, NO_ATTEMPT, false);
      issuerLease, extensionLease, outbox := None, None, [];
    }

    method DropExtensionLease()
      modifies this`extensionLease, store`extension
      ensures extensionLease.None? && store.extension == Unlock(old(store.extension), self, old(extensionLease), None)
    {
      if extensionLease.Some? {
        store.extension := Drop(store.extension, self);
      }
      extensionLease := None;
    }

    /** Drops both lease guards. */
    method DropLeases()
      modifies this`issuerLease, this`extensionLease, store
      ensures issuerLease.None? && extensionLease.None?
      ensures LeasesFreed(old(store.View()), self, old(View()), View(), store.View())
      ensures store.View() == Kept(old(store.View()), self, old(View()), View())
    {
      if issuerLease.Some? {
        store.issuer := Drop(store.issuer, self);
      }
      if extensionLease.Some? {
        store.extension := Drop(store.extension, self);
      }
      issuerLease, extensionLease := None, None;
    }

    /** persist_platform_vpn_state_locked. */
    method PersistState(env: Env)
      modifies this`updatedAt, this`outbox
      ensures Became(Persist(old(View()), env))
      ensures updatedAt > old(updatedAt) && outbox == old(outbox) + [Frame(session, updatedAt)]
    {
      updatedAt := if env.wall > updatedAt + 1 then env.wall else updatedAt + 1;
      outbox := outbox + [FrameOf(View())];
    }

    /** platform_heartbeat_watchdog_expired. */
    method WatchdogExpired(env: Env, remoteRunning: bool, advanced: bool) returns (expired: bool)
      modifies this`watch
      ensures (watch, expired) == Watchdog(old(View()), env, remoteRunning, advanced)
      ensures expired ==>
                && env.isUi && session.running && remoteRunning && !advanced
                && watch.seenAt.Some? && env.now >= watch.seenAt.value + STALE_AFTER
                && old(watch).staleSince.Some? && env.now >= old(watch).staleSince.value + WAKE_GRACE
    {
      var frozen := env.isUi && session.running && remoteRunning && !advanced
                    && watch.seenAt.Some? && env.now >= watch.seenAt.value + STALE_AFTER;
      if !frozen {
        if !remoteRunning || advanced {
          watch := watch.(staleSince := None);
        }
        return false;
      }
      if watch.staleSince.None? {
        watch := watch.(staleSince := Some(env.now));
      }
      return env.now >= watch.staleSince.value + WAKE_GRACE;
    }

    method RecordDeadSession(wasConnected: bool)
      modifies this`recovery
      ensures View() == RecordDead(old(View()), wasConnected)
    {
      if wasConnected && recovery.attempt != session.attempt {
        recovery := Recovery(true, session.attempt, 0, None);
      }
    }

    /** apply_platform_failure. */
    method FailSession()
      modifies this`session, this`watch
      ensures View() == ApplyFailure(old(View()))
    {
      session := session.(starting := false, running := false, outcome := Failed);
      watch := watch.(staleSince := None);
    }

    /** The session fields that a newer or adopted frame changes. */
    method MergeRemoteSession(isUi: bool, remote: Session)
      modifies this`session
      ensures session == MergeSession(old(session), isUi, remote)
      ensures session.attempt == old(session).attempt
      ensures old(session).stopRequested || remote.stopRequested ==> session.stopRequested
      ensures Terminal(remote.outcome) ==>
                session.outcome == remote.outcome && session.cleanup == remote.cleanup && !session.starting && !session.running
      ensures Unfinished(old(session).outcome) && Unfinished(remote.outcome) ==>
                && (remote.running && old(session).outcome.Pending? ==> session.outcome.Connected?)
                && (!(remote.running && old(session).outcome.Pending?) ==> session.outcome == old(session).outcome)
                && session.running == remote.running && session.starting == (!remote.running && remote.starting)
                && !session.cleanup && session.engine == if remote.running then remote.engine else None
      ensures Terminal(old(session).outcome) && !Terminal(remote.outcome) ==>
                && session.outcome == old(session).outcome && session.cleanup == old(session).cleanup
                && session.starting == old(session).starting && session.running == old(session).running
    {
      var s := session.(stopRequested := session.stopRequested || remote.stopRequested,
                        owner := if isUi then remote.owner else session.owner,
                        delivery := session.delivery || remote.delivery,
                        attached := if Terminal(remote.outcome) then remote.attached
                                    else session.attached || remote.attached);
      if Terminal(remote.outcome) {
        s := s.(outcome := remote.outcome, starting := false, running := false, cleanup := remote.cleanup,
                engine := if remote.running then remote.engine else None);
      } else if !Terminal(session.outcome) {
        s := s.(running := remote.running, starting := !remote.running && remote.starting, cleanup := false,
                engine := if remote.running then remote.engine else None);
        if remote.running && s.outcome.Pending? {
          s := s.(outcome := Connected);
        }
      }
      session := s;
    }

    /** The part of apply_platform_envelope_locked that takes over a newer or adopted frame. */
    method MergeRemote(isUi: bool, remote: Session)
      modifies this`session, this`recovery, this`issuerLease, this`extensionLease, store
      ensures View() == ApplyFresh(old(View()), isUi, remote)
      ensures store.View() == Kept(old(store.View()), self, old(View()), View())
    {
      var live := !Terminal(remote.outcome) && !Terminal(session.outcome);
      MergeRemoteSession(isUi, remote);
      if live && session.running {
        recovery := recovery.(pending := false, notBefore := None);
      }
      if session.cleanup {
        DropLeases();
      }
    }

    /** apply_platform_envelope_locked. */
    method ApplyEnvelope(env: Env, expected: Option<AttemptId>, f: Frame)
      modifies this, store
      ensures Became(Apply(old(View()), env, expected, f))
      ensures session.attempt != old(session).attempt ==>
                !env.isUi && expected == Some(session.attempt) && session.attempt == f.session.attempt
      ensures !Matches(old(session), f.session) && (env.isUi || expected != Some(f.session.attempt)) ==>
                Became(Quiet(old(View())))
      ensures Terminal(old(session).outcome) && session.attempt == old(session).attempt ==> Terminal(session.outcome)
      ensures outbox != old(outbox) ==> session.outcome.Failed?
      ensures Ours(old(View()), f) && IsNewer(old(View()), f) && Unfinished(f.session.outcome)
              && Unfinished(old(session).outcome) ==>
                && session.outcome == (if f.session.running && old(session).outcome.Pending? then Connected
                   else old(session).outcome)
                && session.running == f.session.running && session.starting == (!f.session.running && f.session.starting)
                && !session.cleanup && session.engine == (if f.session.running then f.session.engine else None)
                && recovery == if f.session.running then old(recovery).(pending := false, notBefore := None) else old(recovery)
      ensures Ours(old(View()), f) && IsNewer(old(View()), f) && !Unfinished(f.session.outcome) ==>
                && session.outcome == f.session.outcome && session.cleanup == f.session.cleanup
                && !session.running && !session.starting
                && (f.session.cleanup ==> issuerLease.None? && extensionLease.None?)
    {
      if Ours(View(), f) && IsNewer(View(), f) {
        if !Unfinished(f.session.outcome) {
          FinalFrameIsTaken(View(), env, expected, f);
        } else if Unfinished(session.outcome) {
          LiveFrameIsTaken(View(), env, expected, f);
        }
      }
      ApplyAdopts(View(), env, expected, f);
      ApplyRevivesNothing(View(), env, expected, f);
      hide Apply;
      ReceiveFrame(env, expected, f);
    }

    /** Its body: adopt, note liveness, watch, merge. */
    method ReceiveFrame(env: Env, expected: Option<AttemptId>, f: Frame)
      modifies this, store
      ensures Became(Apply(old(View()), env, expected, f))
    {
      hide MergeSession, ApplyFresh;
      var remote := f.session;
      var matches := remote.attempt != NO_ATTEMPT && remote.attempt == session.attempt;
      if env.isUi && !matches {
        return;
      }
      var adopt := !env.isUi && !matches && expected == Some(remote.attempt) && remote.attempt != NO_ATTEMPT;
      if !env.isUi && !matches && !adopt {
        return;
      }
      if adopt {
        session := session.(attempt := remote.attempt, outcome := remote.outcome, delivery := remote.delivery,
                            attached := remote.attached, stopRequested := remote.stopRequested,
                            owner := remote.owner, cleanup := remote.cleanup);
      }
      var advanced := f.updatedAt > watch.remoteUpdatedAt;
      if advanced {
        watch := watch.(remoteUpdatedAt := f.updatedAt, seenAt := Some(env.now), staleSince := None);
      }
      var expired := WatchdogExpired(env, remote.running, advanced);
      if expired {
        var wasConnected := session.running && session.outcome.Connected? && !session.stopRequested;
        FailSession();
        watch := watch.(recoverable := true);
        RecordDeadSession(wasConnected);
        PersistState(env);
        return;
      }
      if advanced || adopt {
        MergeRemote(env.isUi, remote);
      }
    }

    /** sync_platform_vpn_state_locked. */
    method SyncState(env: Env)
      modifies this, store
      ensures Became(Sync(old(View()), env))
      ensures session.attempt == old(session).attempt && (Terminal(old(session).outcome) ==> Terminal(session.outcome))
      ensures DropsOnly(old(View()), View())
    {
      hide Apply;
      SyncFacts(View(), env);
      if env.lane.Some? {
        ApplyEnvelope(env, None, env.lane.value);
      }
    }

    // ----------------------------------------------------- intent and OS stop

    method AdvanceVpnIntent() returns (epoch: Option<nat>)
      modifies this`fence
      ensures (View(), epoch) == AdvanceIntent(old(View()))
      ensures epoch.Some? ==> old(fence).intent < epoch.value == fence.intent <= U64_MAX
      ensures epoch.None? <==> old(fence).intent >= U64_MAX
      ensures fence.(intent := old(fence).intent) == old(fence)
    {
      if fence.intent >= U64_MAX {
        return None;
      }
      fence := fence.(intent := fence.intent + 1);
      return Some(fence.intent);
    }

    method BeginVpnOsStop(epoch: nat, a: AttemptId) returns (ok: bool)
      modifies this`fence
      ensures (View(), ok) == BeginOsStop(old(View()), epoch, a)
      ensures ok ==> !old(fence).inFlight && fence == StopFence(epoch, epoch, a, true)
      ensures ok && old(fence).epoch != 0 ==> old(fence).attempt == a
      ensures !ok ==> fence == old(fence)
    {
      if epoch == 0 || fence.intent != epoch || fence.inFlight {
        return false;
      }
      if fence.epoch == 0 {
        if a != NO_ATTEMPT {
          return false;
        }
        fence := fence.(epoch := epoch, attempt := NO_ATTEMPT);
      } else if fence.epoch != epoch || fence.attempt != a {
        return false;
      }
      fence := fence.(inFlight := true);
      return true;
    }

    method CompleteVpnOsStop(epoch: nat, a: AttemptId) returns (ok: bool)
      modifies this`fence
      ensures (View(), ok) == CompleteOsStop(old(View()), epoch, a)
      ensures ok <==> old(fence) == StopFence(old(fence).intent, epoch, a, true)
      ensures fence.epoch == 0 != old(fence).epoch ==> ok
      ensures ok ==> fence.epoch == 0 && !fence.inFlight && fence.intent == old(fence).intent
    {
      if fence.epoch != epoch || fence.attempt != a || !fence.inFlight {
        return false;
      }
      fence := fence.(epoch := 0, attempt := NO_ATTEMPT, inFlight := false);
      return true;
    }

    method FailVpnOsStop(epoch: nat, a: AttemptId) returns (ok: bool)
      modifies this`fence
      ensures (View(), ok) == FailOsStop(old(View()), epoch, a)
      ensures fence.epoch == old(fence).epoch && fence.attempt == old(fence).attempt && fence.intent == old(fence).intent
      ensures ok <==> old(fence).inFlight && !fence.inFlight
    {
      if fence.epoch != epoch || fence.attempt != a || !fence.inFlight {
        return false;
      }
      fence := fence.(inFlight := false);
      return true;
    }

    // ------------------------------------------------------- starting (UI)

    /** begin_platform_vpn_start_for_intent, with the freshly minted id `a`. */
    method BeginPlatformStart(env: Env, epoch: nat, a: AttemptId) returns (ok: bool)
      requires a != NO_ATTEMPT && self != NO_PROCESS
      modifies this, store
      ensures Ran(BeginRun(old(View()), old(store.View()), env, epoch, a, self), ok)
      ensures var d := Sync(old(View()), env).core;
              ok <==> MayBegin(d, env, epoch) && old(store.journal).Missing?
                      && IssuerFree(old(store.View()), self, old(View()), d)
      ensures env.lane.None? ==>
                (ok <==> epoch != 0 && old(fence).intent == epoch && old(fence).epoch == 0
                         && !old(session).outcome.Pending? && (old(session).attempt == NO_ATTEMPT || old(session).cleanup)
                         && !old(session).running && !env.native.NativeRunning?
                         && old(store.journal).Missing? && old(store.issuer).holder.None?)
      ensures ok ==> store.journal == Present(Owner(a, self, None, Phase.Pending)) && old(store.journal).Missing?
                     && store.issuer == Lease(Some(self), Some(LeaseRecord(a, self)))
                     && old(fence) == StopFence(epoch, 0, old(fence).attempt, old(fence).inFlight)
                     && session.attempt == a && session.outcome.Pending?
      ensures !ok ==> store.journal == old(store.journal) && session.attempt == old(session).attempt
    {
      BeginSucceedsIff(View(), store.View(), env, epoch, a, self);
      ForeignFrameIsIgnored(View(), env, Frame(session, 0));
      hide BeginRun, Apply, Sync;
      ok := IssueAttempt(env, epoch, a);
    }

    /** Its body: check, take journal and lease, reset the session, publish. */
    method IssueAttempt(env: Env, epoch: nat, a: AttemptId) returns (ok: bool)
      requires a != NO_ATTEMPT && self != NO_PROCESS
      modifies this, store
      ensures Ran(BeginRun(old(View()), old(store.View()), env, epoch, a, self), ok)
    {
      hide Apply, Sync;
      if epoch == 0 || fence.intent != epoch || fence.epoch != 0 {
        return false;
      }
      SyncState(env);
      if session.outcome.Pending? || (session.attempt != NO_ATTEMPT && !session.cleanup)
         || session.running || env.native.NativeRunning? {
        return false;
      }
      if store.journal.Present? {
        return false;
      }
      var leased := store.AcquireIssuer(a, self);
      if !leased {
        return false;
      }
      var created := store.CreatePendingExact(a, self);
      assert created;
      DropExtensionLease();
      issuerLease := Some(a);
      session := session.(attempt := a, outcome := Outcome.Pending, delivery := false, attached := false,
                          stopRequested := false, owner := NO_PROCESS, cleanup := false,
                          starting := true, running := false, engine := None);
      watch := Watch(0, None, None, false);
      PersistState(env);
      return true;
    }

    // -------------------------------------------------- binding (Extension)

    /** sync_platform_for_binding_locked and the checks of bind_platform_vpn_start before the journal. */
    method AdoptForBinding(env: Env, a: AttemptId) returns (ok: bool)
      modifies this, store
      ensures var (e, pass) := BindAdopt(old(View()), env, a); Became(e) && ok == pass
      ensures ok ==> session.attempt == a && !Terminal(session.outcome) && StartFrame(env.lane, a)
                     && (session.outcome.Connected? ==> env.native.NativeRunning?)
    {
      if env.isUi || !StartFrame(env.lane, a) {
        return false;
      }
      ApplyEnvelope(env, Some(a), env.lane.value);
      if session.attempt != a || Terminal(session.outcome) {
        return false;
      }
      if session.outcome.Connected? && !env.native.NativeRunning? {
        session := session.(outcome := Outcome.Pending, starting := true, running := false, cleanup := false);
        watch := watch.(recoverable := false);
      }
      return true;
    }

    /** publish_platform_vpn_binding_locked. */
    method PublishBinding(env: Env, a: AttemptId) returns (ok: bool)
      modifies this, store
      ensures var (e, pass) := BindPublish(old(View()), env, a, self); Became(e) && ok == pass
      ensures ok <==> old(session).attempt == a
      ensures ok ==> session.attempt == a && session.attached && session.owner == self
      ensures Terminal(old(session).outcome) ==> Terminal(session.outcome)
    {
      hide Apply, Sync;
      SyncState(env);
      if session.attempt != a {
        return false;
      }
      var changed := session.owner != self;
      session := session.(owner := self);
      if !session.attached {
        session := session.(delivery := true, attached := true, cleanup := false);
        watch := watch.(recoverable := false);
        PersistState(env);
      } else if session.outcome.Pending? && session.starting && !session.running {
        session := session.(delivery := true);
        PersistState(env);
      } else if changed {
        PersistState(env);
      }
      return true;
    }

    /** Takes over the journal entry that bind_platform_vpn_start read, or says why it cannot. */
    method TakeOwnership(a: AttemptId) returns (r: Result<(), BindError>)
      requires a != NO_ATTEMPT && self != NO_PROCESS && store.journal.Valid()
      modifies this`extensionLease, store
      ensures Ran(TakeRun(old(View()), old(store.View()), a, self), r)
      ensures r.Ok? ==> Taken(old(store.View()), a, self) && store.journal.AttachedTo(a, self) && extensionLease.Some?
                        && (old(extensionLease).None? || old(store.journal) != store.journal ==>
                              extensionLease == Some(a) && store.extension.holder == Some(self))
      ensures r.Err? ==> store.View() == old(store.View()) && extensionLease == old(extensionLease)
    {
      if store.journal.Missing? {
        return Err(NoJournal);
      }
      var o := store.journal.owner;
      if o.attempt != a {
        return Err(Stale);
      }
      match (o.phase, o.extension)
      case (Pending, None) =>
        if !Observe(store.issuer, LeaseRecord(a, o.issuer)).HeldExact? {
          return Err(IssuerGone);
        }
        var leased := store.AcquireExtension(a, self);
        if !leased {
          return Err(LeaseBusy);
        }
        var swapped := store.UpgradeAttachedExact(a, o.issuer, self);
        assert swapped;
        extensionLease := Some(a);
        return Ok(());
      case (Attached, Some(q)) =>
        if q == self {
          if extensionLease.None? {
            var leased := store.AcquireExtension(a, self);
            if !leased {
              return Err(LeaseBusy);
            }
            extensionLease := Some(a);
          }
          return Ok(());
        }
        if !Observe(store.extension, LeaseRecord(a, q)).Released? {
          return Err(StillOwned);
        }
        var leased := store.AcquireExtension(a, self);
        assert leased;
        var swapped := store.RebindAttachedExact(a, o.issuer, q, self);
        assert swapped;
        extensionLease := Some(a);
        return Ok(());
      case _ => return Err(Stale);
    }

    /** bind_platform_vpn_start. */
    method BindPlatformStart(env: Env, a: AttemptId) returns (r: Result<(), BindError>)
      requires a != NO_ATTEMPT && self != NO_PROCESS && store.journal.Valid()
      modifies this, store
      ensures Ran(BindRun(old(View()), old(store.View()), env, a, self), r)
      ensures r.Ok? ==> store.journal.AttachedTo(a, self) && session.attempt == a && session.owner == self
      ensures store.journal != old(store.journal) ==>
                BindAdopt(old(View()), env, a).1 && store.journal.AttachedTo(a, self) && !old(store.journal.owner.phase).Stopping?
    {
      hide Apply, Sync, BindAdopt, BindPublish, TakeRun;
      var adopted := AdoptForBinding(env, a);
      if !adopted {
        return Err(if session.TerminalFor(a) then AlreadyTerminal else Stale);
      }
      var taken := TakeOwnership(a);
      if taken.Err? {
        return taken;
      }
      var announced := PublishBinding(env, a);
      return if announced then Ok(()) else Err(Stale);
    }

    // ---------------------------------------------------- cleanup, failing

    method ClearOwner()
      modifies this`session, this`watch, this`issuerLease, this`extensionLease, store
      ensures View() == ClearOwnership(old(View())) && store.View() == Kept(old(store.View()), self, old(View()), View())
    {
      session := session.(cleanup := true, attached := false, stopRequested := true, owner := NO_PROCESS);
      watch := watch.(recoverable := false);
      DropLeases();
    }

    /** complete_platform_vpn_cleanup. */
    method CompleteCleanup(env: Env, a: AttemptId) returns (r: Result<bool, ()>)
      requires self != NO_PROCESS
      modifies this, store
      ensures Ran(AckRun(old(View()), old(store.View()), env, a, self), r)
      ensures r == Ok(true) ==> session.attempt == a && session.cleanup && !session.running && Terminal(session.outcome)
      ensures store.journal != old(store.journal) ==>
                && store.journal.Missing? && old(store.journal).AttachedTo(a, self) && old(extensionLease).Some?
                && r == Ok(true) && issuerLease.None? && extensionLease.None?
    {
      hide Apply, Sync;
      SyncState(env);
      if a == NO_ATTEMPT || session.attempt != a {
        return Ok(false);
      }
      if session.running || session.starting || !Terminal(session.outcome) {
        return Ok(false);
      }
      if session.cleanup {
        return Ok(true);
      }
      if extensionLease.None? || store.journal.Missing? {
        return Err(());
      }
      var o := store.journal.owner;
      if o.attempt != a {
        return Ok(false);
      }
      if !(o.phase.Attached? && o.extension == Some(self) && session.owner == self) {
        return Err(());
      }
      var deleted := store.DeleteOwnerExact(a, Some(self));
      if !deleted {
        return Err(());
      }
      ClearOwner();
      PersistState(env);
      return Ok(true);
    }

    /** fail_platform_vpn_start_if. */
    method FailStartIf(env: Env, a: AttemptId, requireUnattached: bool) returns (ok: bool)
      modifies this, store
      ensures Ran(FailRun(old(View()), old(store.View()), env, a, requireUnattached, self), ok)
      ensures ok ==> session.attempt == a && session.outcome.Failed? && !session.running
      ensures ok && requireUnattached ==> session.cleanup && DeletePendingExact(old(store.journal), a).1 && store.journal.Missing?
      ensures store.journal != old(store.journal) ==> ok && requireUnattached
    {
      hide Apply, Sync;
      SyncState(env);
      if a == NO_ATTEMPT || session.attempt != a || !session.outcome.Pending? || (requireUnattached && session.attached) {
        return false;
      }
      if requireUnattached {
        var deleted := store.DeletePending(a);
        if !deleted {
          return false;
        }
      }
      session := session.(starting := false, running := false, outcome := Failed);
      if requireUnattached {
        session := session.(cleanup := true);
      }
      if session.cleanup {
        DropLeases();
      }
      PersistState(env);
      return true;
    }

    /** cancel_platform_vpn_start. */
    method CancelPlatformStart(env: Env, a: AttemptId) returns (ok: bool)
      modifies this, store
      ensures var (e, pass) := CancelStart(old(View()), env, a); Became(e) && ok == pass
      ensures ok ==> a != NO_ATTEMPT && old(session).attempt == session.attempt == a && !Terminal(old(session).outcome)
      ensures ok ==> session.outcome.Cancelled? && !session.running && !session.starting
    {
      hide Apply, Sync;
      SyncState(env);
      if a == NO_ATTEMPT || session.attempt != a || !session.outcome.Pending? {
        return false;
      }
      session := session.(starting := false, running := false, outcome := Cancelled);
      PersistState(env);
      return true;
    }

    /** request_platform_vpn_stop. */
    method RequestPlatformStop(env: Env, a: AttemptId) returns (ok: bool)
      modifies this, store
      ensures var (e, pass) := RequestStop(old(View()), env, a); Became(e) && ok == pass
      ensures ok ==> a != NO_ATTEMPT && old(session).attempt == session.attempt == a
      ensures ok ==> session.cleanup || (session.stopRequested && session.attached && !Terminal(session.outcome))
    {
      hide Apply, Sync;
      if a == NO_ATTEMPT {
        return false;
      }
      SyncState(env);
      if session.attempt != a {
        return false;
      }
      if session.cleanup {
        return true;
      }
      if !session.attached || watch.recoverable || Terminal(session.outcome) {
        return false;
      }
      recovery := recovery.(pending := false, notBefore := None);
      if !session.stopRequested {
        session := session.(stopRequested := true);
        PersistState(env);
      }
      return true;
    }

    // --------------------------------------------------------- claiming a stop

    /** claim_current_platform_vpn_stop; `raced` is the journal after any race between its read and its fence. */
    method ClaimPlatformStop(env: Env, epoch: nat, raced: Journal) returns (claim: StopClaim)
      modifies this, store
      ensures Ran(ClaimRun(old(View()), old(store.View()), env, raced, epoch, self), claim)
      ensures claim.Claimed? ==> epoch != 0 && fence == StopFence(epoch, epoch, claim.attempt, false)
      ensures claim.Claimed? && old(fence).epoch != 0 ==> claim.attempt == old(fence).attempt
      ensures !claim.Claimed? ==> fence == old(fence)
      ensures claim.Claimed? && raced == old(store.journal) && store.journal.Present? ==> !store.journal.owner.phase.Pending?
    {
      hide Sync, ClaimRace;
      SyncKeepsFence(View(), env);
      if epoch == 0 || fence.intent != epoch || fence.inFlight {
        return ClaimError;
      }
      var retained := fence.epoch != 0;
      SyncState(env);
      var open := session.attempt == NO_ATTEMPT || session.cleanup;
      if store.journal.Missing? {
        if !open {
          return ClaimError;
        }
        if !retained {
          return NothingToStop;
        }
        fence := StopFence(fence.intent, epoch, fence.attempt, false);
        return Claimed(fence.attempt);
      }
      var o := store.journal.owner;
      if (retained && fence.attempt != o.attempt) || (!open && session.attempt != o.attempt) {
        return ClaimError;
      }
      if !open {
        if session.outcome.Pending? {
          session := session.(outcome := Cancelled, starting := false, running := false);
        }
        session := session.(stopRequested := true);
        PersistState(env);
      }
      claim := FenceOwner(epoch, o, raced);
    }

    /** The race of Pending -> Stopping against Pending -> Attached, and the fence it leaves. */
    method FenceOwner(epoch: nat, o: Owner, raced: Journal) returns (claim: StopClaim)
      modifies this`fence, store`journal
      ensures (View(), store.journal, claim) == ClaimRace(old(View()), raced, epoch, o)
      ensures claim.Claimed? ==> claim.attempt == o.attempt && fence == StopFence(old(fence).intent, epoch, o.attempt, false)
      ensures !claim.Claimed? ==> claim.ClaimError? && fence == old(fence)
      ensures claim.Claimed? && raced == Present(o) && store.journal.Present? ==> !store.journal.owner.phase.Pending?
    {
      store.journal := raced;
      if o.phase.Pending? && o.extension.None? {
        var result := store.FencePendingStopExact(o.attempt, o.issuer);
        if result.Conflict? || (result.RaceLost? && !ClaimStillOwned(store.journal, o.attempt)) {
          return ClaimError;
        }
      } else if o.phase.Attached? != o.extension.Some? {
        return ClaimError;
      }
      fence := StopFence(fence.intent, epoch, o.attempt, false);
      return Claimed(o.attempt);
    }

    // ------------------------------------- recovery after a confirmed OS stop

    /** recover_platform_vpn_cleanup_after_confirmed_stop. */
    method RecoverCleanup(rounds: seq<Round>, a: AttemptId) returns (result: Recovered)
      modifies this, store
      ensures a == NO_ATTEMPT ==> result.RecoveredNot? && Became(Quiet(old(View())))
      ensures a != NO_ATTEMPT ==>
                var (e, j, r) := RecoverRun(old(View()), old(store.journal), rounds, a);
                Ran(Run(e.core, e.published, Kept(old(store.View()).(journal := j), self, old(View()), e.core), r), result)
      ensures result.RecoveredDone? && session.attempt == a ==> session.cleanup
    {
      hide RecoverRound, RecoverySnapshot, OwnerProof, RecoveryCommit, Sync;
      if a == NO_ATTEMPT {
        return RecoveredNot;
      }
      ghost var all := RecoverRun(View(), store.journal, rounds, a);
      if all.2.RecoveredDone? {
        RecoveredMeansProven(View(), store.journal, rounds, a);
      }
      var k := 0;
      while k < |rounds|
        invariant 0 <= k <= |rounds|
        invariant var (e, j, r) := RecoverRun(View(), store.journal, rounds[k..], a);
                  outbox + e.published == old(outbox) + all.0.published && e.core == all.0.core && j == all.1 && r == all.2
        invariant DropsOnly(old(View()), View())
        invariant store.View() == Kept(old(store.View()).(journal := store.journal), self, old(View()), View())
      {
        RoundDrops(View(), store.journal, rounds[k], a);
        var done := MakeRound(rounds[k], a);
        assert rounds[k..][1..] == rounds[k + 1..];
        if done.Some? {
          return done.value;
        }
        k := k + 1;
      }
      return RecoveredWaiting;
    }

    method MakeRound(r: Round, a: AttemptId) returns (done: Option<Recovered>)
      modifies this, store
      ensures var (e, j, d) := RecoverRound(old(View()), old(store.journal), r, a);
              Ran(Run(e.core, e.published, Kept(old(store.View()).(journal := j), self, old(View()), e.core), d), done)
    {
      hide Sync, Apply, RecoveryCommit, DeleteExact, OwnerProof, Kept;
      ghost var c, s := View(), store.View();
      SyncState(r.snapshot);
      ghost var d := View();
      KeptTwice(s, self, c, d, d, s.journal);
      if session.attempt == a && session.cleanup {
        return Some(RecoveredDone);
      }
      var unattached := session.attempt == a && !session.attached && session.stopRequested && Terminal(session.outcome);
      if r.atRead.Missing? {
        SyncState(r.finish);
        KeptTwice(s, self, c, d, View(), s.journal);
        return Some(if session.attempt == a && session.cleanup then RecoveredDone else RecoveredError);
      }
      if r.atRead.owner.attempt != a {
        return Some(RecoveredNot);
      }
      match OwnerProof(r.atRead.owner, r.issuer, r.extension, unattached)
      case Proven =>
        done := DeleteAndFinish(r, a);
        KeptTwice(s, self, c, d, View(), DeleteExact(r.atDelete, a, r.atRead.owner.extension).0);
      case OwnerAlive => return if r.expired then Some(RecoveredNot) else None;
      case _ => return Some(RecoveredError);
    }

    /** Removes the entry whose owner is proven gone, and closes the attempt here if that was still it. */
    method DeleteAndFinish(r: Round, a: AttemptId) returns (done: Option<Recovered>)
      requires r.atRead.Present?
      modifies this, store
      ensures DropsOnly(old(View()), View())
      ensures var (k, deleted) := DeleteExact(r.atDelete, a, r.atRead.owner.extension);
              && done == (if deleted then Some(RecoveredDone) else None)
              && var e := if deleted then RecoveryCommit(old(View()), r.finish, a) else Quiet(old(View()));
                 View() == e.core && outbox == old(outbox) + e.published
                 && store.View() == Kept(old(store.View()).(journal := k), self, old(View()), e.core)
    {
      hide Sync, Apply, RecoveryCommit, DeleteExact;
      store.journal := r.atDelete;
      var deleted := store.DeleteOwnerExact(a, r.atRead.owner.extension);
      if !deleted {
        return None;
      }
      FinishRecovery(r.finish, a);
      return Some(RecoveredDone);
    }

    method FinishRecovery(env: Env, a: AttemptId)
      modifies this, store
      ensures Became(RecoveryCommit(old(View()), env, a)) && DropsOnly(old(View()), View())
    {
      hide Apply, Sync;
      SyncState(env);
      if session.attempt == a && !session.cleanup {
        session := session.(starting := false, running := false,
                            outcome := if session.outcome.Failed? then Failed else Cancelled);
        ClearOwner();
        PersistState(env);
      }
    }

    // ------------------------------------------------ Extension tick, recovery

    /** extension_tick. */
    method ExtensionTick(env: Env, a: AttemptId, operationFree: bool) returns (beat: Beat)
      modifies this, store
      ensures var (e, b) := Tick(old(View()), env, a, operationFree); Became(e) && beat == b
      ensures beat.BeatConnected? ==>
                && session.attempt == a && session.attached && session.running
                && !Terminal(session.outcome) && !session.stopRequested
      ensures beat.BeatFailed? ==> session.attempt == a && session.outcome.Failed?
      ensures beat.BeatStopping? <==> session.attempt == a && session.stopRequested
    {
      hide Sync, Apply;
      TickReportsTheTruth(View(), env, a, operationFree);
      SyncState(env);
      if session.attempt != a {
        return BeatError;
      }
      if session.stopRequested {
        return BeatStopping;
      }
      if Terminal(session.outcome) {
        return if session.outcome.Failed? then BeatFailed else BeatDisconnected;
      }
      if !session.attached {
        return BeatError;
      }
      if session.engine.Some? && !session.engine.value.Meow? && session.running && session.outcome.Connected? {
        PersistState(env);
        return BeatConnected;
      }
      if !operationFree {
        PersistState(env);
        return if session.running && session.outcome.Connected? then BeatConnected else BeatStarting;
      }
      match env.native
      case NativeRunning =>
        session := session.(starting := false, running := true,
                            outcome := if session.outcome.Pending? then Connected else session.outcome);
        PersistState(env);
        return BeatConnected;
      case NativeFailed =>
        FailSession();
        PersistState(env);
        return BeatFailed;
      case NativeStopped =>
        if session.outcome.Pending? && session.starting {
          PersistState(env);
          return BeatStarting;
        }
        if session.running {
          FailSession();
          PersistState(env);
          return BeatFailed;
        }
        return BeatDisconnected;
    }

    /** refresh_platform_vpn_owner_liveness_locked. */
    method RefreshOwnerLiveness(env: Env)
      modifies this
      ensures Became(if store.extension.holder.Some? then Quiet(old(View())) else OwnerLost(old(View()), env, store.journal))
      ensures View() != old(View()) ==>
                && store.extension.holder.None? && store.journal.AttachedTo(old(session).attempt, old(session).owner)
                && session.attempt == old(session).attempt && session.outcome.Failed?
    {
      if !session.attached || session.cleanup || !(session.outcome.Pending? || session.outcome.Connected?) {
        return;
      }
      if store.extension.holder.Some? || !store.journal.AttachedTo(session.attempt, session.owner) {
        return;
      }
      var wasConnected := session.running && session.outcome.Connected? && !session.stopRequested;
      FailSession();
      RecordDeadSession(wasConnected);
      PersistState(env);
    }

    /** claim_platform_vpn_auto_recovery after its sync and liveness refresh. */
    method ClaimAutoRecovery(env: Env, hasProfile: bool, orphan: Option<AttemptId>) returns (dead: Option<AttemptId>)
      modifies this`recovery
      ensures (View(), dead) == ClaimRecovery(old(View()), env, hasProfile, orphan)
      ensures dead.Some? ==>
                recovery == Recovery(false, dead.value, recovery.attempts, None) && 0 < recovery.attempts <= MAX_RECOVERIES
      ensures dead.Some? ==> !session.running && !session.starting && !env.native.NativeRunning? && hasProfile
      ensures dead.Some? && old(recovery).pending ==>
                && recovery.attempts == old(recovery).attempts + 1
                && (old(recovery).notBefore.Some? ==> env.now >= old(recovery).notBefore.value)
    {
      if env.native.NativeRunning? || session.running || session.starting || !hasProfile {
        return None;
      }
      if !recovery.pending && session.attempt == NO_ATTEMPT && recovery.attempt == NO_ATTEMPT && orphan.Some? {
        recovery := Recovery(true, orphan.value, 0, None);
      }
      if !recovery.pending {
        return None;
      }
      if recovery.attempts >= MAX_RECOVERIES {
        recovery := recovery.(pending := false, notBefore := None);
        return None;
      }
      if recovery.notBefore.Some? && env.now < recovery.notBefore.value {
        return None;
      }
      recovery := recovery.(pending := false, attempts := recovery.attempts + 1, notBefore := None);
      return Some(recovery.attempt);
    }

    /** rearm_platform_vpn_auto_recovery. */
    method RearmAutoRecovery(env: Env)
      modifies this`recovery
      ensures View() == Rearm(old(View()), env)
      ensures recovery.attempts == old(recovery).attempts && recovery.attempt == old(recovery).attempt
      ensures recovery != old(recovery) ==>
                && (recovery.attempts == 1 || recovery.attempts == 2) && recovery.pending
                && recovery.notBefore == Some(env.now + if recovery.attempts == 1 then 10_000 else 30_000)
    {
      if env.native.NativeRunning? || session.running || session.starting {
        return;
      }
      if 0 < recovery.attempts < MAX_RECOVERIES {
        var backoff := if recovery.attempts == 1 then FIRST_BACKOFF else SECOND_BACKOFF;
        recovery := recovery.(pending := true, notBefore := Some(env.now + backoff));
      }
    }

    // ------------------------------------------- the Extension's own lifecycle

    /** stop_vpn_inner for one attempt, before it joins the native worker. */
    method StopPlatformSession(env: Env, a: AttemptId) returns (ok: bool)
      modifies this, store
      ensures var (e, pass) := StopSession(old(View()), env, a); Became(e) && ok == pass
      ensures ok <==> old(session).attempt == a
      ensures ok ==>
                && session.attempt == a && Terminal(session.outcome) && session.stopRequested
                && !session.running && !session.starting
    {
      hide Apply, Sync;
      SyncState(env);
      if session.attempt != a {
        return false;
      }
      session := session.(starting := false, running := false, engine := None, stopRequested := true);
      if !session.outcome.Failed? {
        session := session.(outcome := Cancelled);
      }
      PersistState(env);
      return true;
    }

    /** stop_vpn_inner after the worker is joined: a stale cleanup touches nothing. */
    method FinishPlatformStop(env: Env, a: AttemptId)
      modifies this
      ensures Became(StopFinish(old(View()), env, a))
      ensures old(session).attempt != a ==> Became(Quiet(old(View())))
      ensures old(session).attempt == a ==> !session.running && !session.starting && !session.outcome.Pending?
    {
      if session.attempt != a {
        return;
      }
      session := session.(starting := false, running := false, engine := None);
      if session.outcome.Pending? {
        session := session.(outcome := Cancelled);
      }
      PersistState(env);
    }

    /** The commit of start_vpn_inner once its native worker runs. */
    method CommitVpnStart(env: Env, a: AttemptId) returns (ok: bool)
      modifies this, store
      ensures var (e, pass) := StartCommit(old(View()), env, a); Became(e) && ok == pass
      ensures ok ==> a != NO_ATTEMPT && old(session).attempt == session.attempt == a && session.attached
      ensures ok ==> !Terminal(old(session).outcome) && session.running && session.outcome.Connected?
    {
      hide Apply, Sync;
      SyncState(env);
      if !session.Active(a) {
        return false;
      }
      session := session.(starting := false, running := true, engine := Some(Meow));
      if session.outcome.Pending? {
        session := session.(outcome := Connected);
      }
      PersistState(env);
      return true;
    }

    /** start_external_platform_vpn. */
    method StartExternalVpn(env: Env, a: AttemptId, chosen: Engine) returns (ok: bool)
      modifies this, store
      ensures var (e, pass) := StartExternal(old(View()), env, a, chosen); Became(e) && ok == pass
      ensures ok ==> a != NO_ATTEMPT && old(session).attempt == session.attempt == a && session.attached
      ensures ok ==> !Terminal(old(session).outcome) && session.running
      ensures ok ==> session.outcome.Connected? && session.engine == Some(chosen)
    {
      hide Apply, Sync;
      if chosen.Meow? {
        return false;
      }
      SyncState(env);
      if !session.Active(a) {
        return false;
      }
      session := session.(starting := false, running := true, engine := Some(chosen), outcome := Connected);
      PersistState(env);
      return true;
    }

    /** set_platform_vpn_starting_for_attempt. */
    method SetVpnStarting(env: Env, a: AttemptId, starting: bool) returns (ok: bool)
      modifies this, store
      ensures var (e, pass) := SetStarting(old(View()), env, a, starting); Became(e) && ok == pass
      ensures ok ==> a != NO_ATTEMPT && old(session).attempt == session.attempt == a && session.attached
      ensures ok ==> !Terminal(old(session).outcome) && (starting ==> session.outcome.Pending?) && session.starting == starting
    {
      hide Apply, Sync;
      SyncState(env);
      if !session.Active(a) || (starting && !session.outcome.Pending?) {
        return false;
      }
      session := session.(starting := starting);
      if starting {
        session := session.(running := false);
      }
      PersistState(env);
      return true;
    }

    /** set_platform_vpn_failed_for_attempt. */
    method SetVpnFailed(env: Env, a: AttemptId) returns (ok: bool)
      modifies this, store
      ensures var (e, pass) := SetFailed(old(View()), env, a); Became(e) && ok == pass
      ensures ok ==> a != NO_ATTEMPT && old(session).attempt == session.attempt == a && session.attached
      ensures ok ==> !Terminal(old(session).outcome) && session.outcome.Failed?
    {
      hide Apply, Sync;
      SyncState(env);
      if !session.Active(a) {
        return false;
      }
      FailSession();
      PersistState(env);
      return true;
    }

    /** publish_native_vpn_exit, once the exited generation is confirmed. */
    method PublishNativeExit(env: Env, a: AttemptId)
      modifies this
      ensures Became(NativeExit(old(View()), env, a))
      ensures View() != old(View()) ==> old(session).attempt == a && !Terminal(old(session).outcome) && session.outcome.Failed?
    {
      if session.attempt != a || Terminal(session.outcome) {
        return;
      }
      FailSession();
      PersistState(env);
    }
  }
}
