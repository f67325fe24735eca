/**
 What each transition of the platform session does and when it succeeds, in the
 fields of the core it starts from: the same functions that PlatformCore is
 proved against, pinned from outside.

 Most methods first read the peer's lane; `s` is the session after that, and the
 first laws say exactly what that session is.
 */
module PlatformLaws {
  import opened Wrappers
  import opened OwnerJournal
  import opened PlatformState
  import opened PlatformRuns

  // ------------------------------------------------------- receiving a frame

  predicate Unfinished(o: Outcome) { o != Failed && o != Cancelled }

  /** The frame is of the attempt this core carries. */
  predicate Ours(c: Core, f: Frame) {
    f.session.attempt != NO_ATTEMPT && f.session.attempt == c.session.attempt
  }

  predicate IsNewer(c: Core, f: Frame) { f.updatedAt > c.watch.remoteUpdatedAt }

  /** Only the sessions, what is known of the peer, the recovery and the leases can differ. */
  predicate SameBooks(c: Core, d: Core) { d.fence == c.fence && d.updatedAt == c.updatedAt }

  /**
   A newer live frame moves an unfinished attempt: a running Extension makes a
   Pending attempt Connected, and a pending recovery is called off.
   */
  lemma LiveFrameIsTaken(c: Core, env: Env, expected: Option<AttemptId>, f: Frame)
    requires Ours(c, f) && IsNewer(c, f) && Unfinished(f.session.outcome) && Unfinished(c.session.outcome)
    ensures var (e, o, r) := (Apply(c, env, expected, f), c.session, f.session);
            var s := e.core.session;
            && e.published == [] && SameBooks(c, e.core)
            && s.attempt == o.attempt && !s.cleanup
            && s.outcome == (if r.running && o.outcome == Outcome.Pending then Connected else o.outcome)
            && s.running == r.running && s.starting == (!r.running && r.starting)
            && s.engine == (if r.running then r.engine else None)
            && s.attached == (o.attached || r.attached) && s.delivery == (o.delivery || r.delivery)
            && s.stopRequested == (o.stopRequested || r.stopRequested)
            && s.owner == (if env.isUi then r.owner else o.owner)
            && e.core.watch == Watch(f.updatedAt, Some(env.now), None, c.watch.recoverable)
            && e.core.recovery == (if r.running then Recovery(false, c.recovery.attempt, c.recovery.attempts, None)
               else c.recovery)
            && e.core.issuerLease == c.issuerLease && e.core.extensionLease == c.extensionLease
  {
  }

  /** A newer final frame ends the attempt as it says, and its cleanup gives up the leases. */
  lemma FinalFrameIsTaken(c: Core, env: Env, expected: Option<AttemptId>, f: Frame)
    requires Ours(c, f) && IsNewer(c, f) && !Unfinished(f.session.outcome)
    ensures var (e, o, r) := (Apply(c, env, expected, f), c.session, f.session);
            var s := e.core.session;
            && e.published == [] && SameBooks(c, e.core)
            && s.attempt == o.attempt && s.outcome == r.outcome && s.cleanup == r.cleanup && !s.running && !s.starting
            && s.attached == r.attached && s.engine == (if r.running then r.engine else None)
            && s.delivery == (o.delivery || r.delivery) && s.stopRequested == (o.stopRequested || r.stopRequested)
            && s.owner == (if env.isUi then r.owner else o.owner)
            && e.core.watch == Watch(f.updatedAt, Some(env.now), None, c.watch.recoverable) && e.core.recovery == c.recovery
            && e.core.issuerLease == (if r.cleanup then None else c.issuerLease)
            && e.core.extensionLease == (if r.cleanup then None else c.extensionLease)
  {
  }

  /** A live frame that comes after the end moves nothing of the lifecycle. */
  lemma LateFrameMovesNothing(c: Core, env: Env, expected: Option<AttemptId>, f: Frame)
    requires Ours(c, f) && IsNewer(c, f) && Unfinished(f.session.outcome) && !Unfinished(c.session.outcome)
    ensures var (e, o, r) := (Apply(c, env, expected, f), c.session, f.session);
            && e.published == [] && SameBooks(c, e.core)
            && e.core.session == o.(attached := o.attached || r.attached, delivery := o.delivery || r.delivery,
                                    stopRequested := o.stopRequested || r.stopRequested,
                                    owner := if env.isUi then r.owner else o.owner)
            && e.core.watch == Watch(f.updatedAt, Some(env.now), None, c.watch.recoverable) && e.core.recovery == c.recovery
            && e.core.issuerLease == (if o.cleanup then None else c.issuerLease)
            && e.core.extensionLease == (if o.cleanup then None else c.extensionLease)
  {
  }

  /** Nothing newer for 15 s from a peer that claims to run. */
  predicate Frozen(c: Core, env: Env, f: Frame) {
    env.isUi && c.session.running && f.session.running && c.watch.seenAt.Some? && env.now >= c.watch.seenAt.value + 15_000
  }

  /**
   A frame that is not newer changes no session, except that a UI core which first
   noticed the silence 6 s ago or more fails its attempt, publishes that, and asks
   for a recovery if it was connected and nobody had asked to stop.
   */
  lemma OldFrameOnlyTells(c: Core, env: Env, expected: Option<AttemptId>, f: Frame)
    requires Ours(c, f) && !IsNewer(c, f)
    ensures var e := Apply(c, env, expected, f);
            if Frozen(c, env, f) && c.watch.staleSince.Some? && env.now >= c.watch.staleSince.value + 6_000 then
              && e.core.session == c.session.(outcome := Failed, starting := false, running := false)
              && e.core.watch == c.watch.(staleSince := None, recoverable := true)
              && e.core.recovery == (if c.session.outcome == Connected && !c.session.stopRequested
                                        && c.recovery.attempt != c.session.attempt
                                     then Recovery(true, c.session.attempt, 0, None) else c.recovery)
              && e.core.updatedAt > c.updatedAt && e.published == [Frame(e.core.session, e.core.updatedAt)]
              && e.core == c.(session := e.core.session, watch := e.core.watch, recovery := e.core.recovery,
                 updatedAt := e.core.updatedAt)
            else
              && e.published == []
              && e.core == c.(watch := c.watch.(staleSince :=
                   if Frozen(c, env, f) then (if c.watch.staleSince.Some? then c.watch.staleSince else Some(env.now))
                   else if !f.session.running then None else c.watch.staleSince))
  {
  }

  lemma WatchOfExtension(c: Core, env: Env, running: bool, advanced: bool)
    requires !env.isUi
    ensures Watchdog(c, env, running, advanced) == (if !running || advanced then c.watch.(staleSince := None) else c.watch, false)
  {
  }

  /** An Extension adopts the attempt its Want names; whatever it carried before is gone. */
  lemma WantedFrameIsAdopted(c: Core, env: Env, f: Frame)
    requires !env.isUi && f.session.attempt != NO_ATTEMPT && !Ours(c, f)
    ensures var (e, r) := (Apply(c, env, Some(f.session.attempt), f), f.session);
            var live := Unfinished(r.outcome);
            && e.published == [] && SameBooks(c, e.core)
            && e.core.session == r.(
                 outcome := if live && r.running && r.outcome == Outcome.Pending then Connected else r.outcome,
                 cleanup := !live && r.cleanup, running := live && r.running, starting := live && !r.running && r.starting,
                 engine := if r.running then r.engine else None)
            && e.core.watch == (if IsNewer(c, f) then Watch(f.updatedAt, Some(env.now), None, c.watch.recoverable)
                                else if !r.running then c.watch.(staleSince := None) else c.watch)
            && e.core.recovery == (if live && r.running then Recovery(false, c.recovery.attempt, c.recovery.attempts, None)
                                   else c.recovery)
            && e.core.issuerLease == (if !live && r.cleanup then None else c.issuerLease)
            && e.core.extensionLease == (if !live && r.cleanup then None else c.extensionLease)
  {
    WatchOfExtension(Seen(c, env, Some(f.session.attempt), f), env, f.session.running, IsNewer(c, f));
    hide Watchdog;
  }

  /** A frame of another attempt, and an empty lane, say nothing. */
  lemma ForeignFrameIsIgnored(c: Core, env: Env, f: Frame)
    ensures !Ours(c, f) ==> Apply(c, env, None, f) == Eff(c, [])
    ensures Sync(c, env) == if env.lane.Some? then Apply(c, env, None, env.lane.value) else Eff(c, [])
  {
  }

  /** Publishing: the session as it stands, under a revision above every earlier one and not behind the clock. */
  lemma PersistLaw(c: Core, env: Env)
    ensures var e := Persist(c, env);
            && e.published == [Frame(c.session, e.core.updatedAt)] && e.core == c.(updatedAt := e.core.updatedAt)
            && e.core.updatedAt > c.updatedAt && e.core.updatedAt >= env.wall
            && (e.core.updatedAt == env.wall || e.core.updatedAt == c.updatedAt + 1)
  {
  }

  /** e leaves core c, having published c's session after what a published before. */
  predicate Announces(a: Eff, c: Core, e: Eff) {
    && e.core.updatedAt > c.updatedAt && e.core == c.(updatedAt := e.core.updatedAt)
    && e.published == a.published + [Frame(c.session, e.core.updatedAt)]
  }

  /** Lease l after process p gave up its hold on it, if it did. */
  predicate GivenUp(l: Lease, p: ProcessId, gave: bool, after: Lease) {
    after.record == l.record && after.holder == (if gave && l.holder == Some(p) then None else l.holder)
  }

  /** The leases that a core dropped are free in the store, and nothing else of it changed. */
  predicate LeasesFreed(s: Shared, self: ProcessId, before: Core, after: Core, t: Shared) {
    && GivenUp(s.issuer, self, before.issuerLease.Some? && after.issuerLease.None?, t.issuer)
    && GivenUp(s.extension, self, before.extensionLease.Some? && after.extensionLease.None?, t.extension)
    && t.journal == s.journal
  }

  lemma KeptReleases(s: Shared, self: ProcessId, before: Core, after: Core)
    ensures LeasesFreed(s, self, before, after, Kept(s, self, before, after))
  {
  }

  // ---------------------------------------------------------------- starting

  /** What the source asks for before a start, once the lane is read. */
  predicate MayBegin(c: Core, env: Env, epoch: nat) {
    && epoch != 0 && c.fence.intent == epoch && c.fence.epoch == 0
    && c.session.outcome != Outcome.Pending && (c.session.attempt == NO_ATTEMPT || c.session.cleanup)
    && !c.session.running && env.native != NativeRunning
  }

  /** The issuer lease is free, or this process held it and just gave it up. */
  predicate IssuerFree(s: Shared, self: ProcessId, before: Core, after: Core) {
    s.issuer.holder == None || (s.issuer.holder == Some(self) && before.issuerLease.Some? && after.issuerLease.None?)
  }

  /**
   A start succeeds exactly when the fence is open for this intent, no attempt is
   pending, running or waiting for its cleanup, and journal and issuer lease are
   free. It then carries exactly the fresh attempt, owns entry and lease, and
   has published it.
   */
  lemma BeginSucceedsIff(c: Core, s: Shared, env: Env, epoch: nat, a: AttemptId, self: ProcessId)
    ensures var (r, d) := (BeginRun(c, s, env, epoch, a, self), Sync(c, env).core);
            && (r.result <==> MayBegin(d, env, epoch) && s.journal == Missing && IssuerFree(s, self, c, d))
            && (r.result ==>
                  && r.core.session == Session(a, Outcome.Pending, false, false, false, NO_PROCESS, false, true, false, None)
                  && r.core.watch == Watch(0, None, None, false) && r.core.issuerLease == Some(a) && r.core.extensionLease == None
                  && r.core.fence == c.fence && r.core.recovery == d.recovery
                  && r.published == Sync(c, env).published + [Frame(r.core.session, r.core.updatedAt)]
                  && r.core.updatedAt > d.updatedAt
                  && r.shared.journal == Present(Owner(a, self, None, Phase.Pending))
                  && r.shared.issuer == Lease(Some(self), Some(LeaseRecord(a, self)))
                  && GivenUp(s.extension, self, c.extensionLease.Some?, r.shared.extension))
            && (!r.result ==> r.shared.journal == s.journal && r.core.session.attempt == c.session.attempt
                              && LeasesFreed(s, self, c, r.core, r.shared))
  {
    hide Apply;
    SyncFacts(c, env);
    SyncBooks(c, env);
    hide Sync;
  }

  lemma SyncBooks(c: Core, env: Env)
    ensures Sync(c, env).core.fence == c.fence
  {
  }

  // ----------------------------------------------------------------- binding

  /** The frame a start must find in the UI's lane. */
  predicate Offers(env: Env, a: AttemptId) {
    && env.lane.Some? && env.lane.value.session.attempt == a
    && (env.lane.value.session.outcome == Outcome.Pending || env.lane.value.session.outcome == Connected)
  }

  /**
   An Extension takes up the attempt exactly when the lane offers it and this core
   did not itself end it; what it finds Connected without a running worker of its
   own starts over.
   */
  lemma AdoptsIff(c: Core, env: Env, a: AttemptId)
    requires a != NO_ATTEMPT
    ensures var (e, ok) := BindAdopt(c, env, a);
            && (ok <==> !env.isUi && Offers(env, a) && !(c.session.attempt == a && !Unfinished(c.session.outcome)))
            && (ok ==>
                  var d := Apply(c, env, Some(a), env.lane.value);
                  var again := d.core.session.outcome == Connected && env.native != NativeRunning;
                  && e.core.session.attempt == a && e.published == d.published && SameBooks(c, e.core)
                  && e.core.session == (if again then d.core.session.(outcome := Outcome.Pending, starting := true,
                     running := false, cleanup := false)
                                        else d.core.session)
                  && e.core.watch == (if again then d.core.watch.(recoverable := false) else d.core.watch)
                  && e.core.recovery == d.core.recovery)
            && (!ok && !(!env.isUi && Offers(env, a)) ==> e == Eff(c, []))
  {
    if !env.isUi && Offers(env, a) {
      var f := env.lane.value;
      if !Ours(c, f) {
        WantedFrameIsAdopted(c, env, f);
      } else if IsNewer(c, f) {
        if Unfinished(c.session.outcome) { LiveFrameIsTaken(c, env, Some(a), f); }
            else { LateFrameMovesNothing(c, env, Some(a), f); }
      } else {
        OldFrameOnlyTells(c, env, Some(a), f);
      }
    }
    hide Apply;
  }

  /** The owner that process `self` may replace or become, and the leases it needs for that. */
  predicate MayTake(c: Core, s: Shared, a: AttemptId, self: ProcessId) {
    && s.journal.Present? && s.journal.owner.attempt == a
    && var o := s.journal.owner;
       if o.phase == Phase.Pending then
         s.issuer == Lease(s.issuer.holder, Some(LeaseRecord(a, o.issuer))) && s.issuer.holder.Some? && s.extension.holder == None
       else
         o.phase == Phase.Attached && ((o.extension == Some(self) && c.extensionLease.Some?) || s.extension.holder == None)
  }

  /** Taking the entry succeeds exactly then; it leaves this process its attached owner, with the lease. */
  lemma TakesIff(c: Core, s: Shared, a: AttemptId, self: ProcessId)
    requires s.journal.Valid() && a != NO_ATTEMPT && self != NO_PROCESS
    ensures var r := TakeRun(c, s, a, self);
            var held := s.journal.AttachedTo(a, self) && c.extensionLease.Some?;
            && (r.result.Ok? <==> MayTake(c, s, a, self)) && r.published == []
            && (r.result.Ok? ==>
                  && r.shared.journal == Present(Owner(a, s.journal.owner.issuer, Some(self), Phase.Attached))
                  && r.shared.issuer == s.issuer
                  && r.shared.extension == (if held then s.extension else Lease(Some(self), Some(LeaseRecord(a, self))))
                  && r.core == (if held then c else c.(extensionLease := Some(a))))
            && (r.result.Err? ==> r.core == c && r.shared == s)
  {
  }

  /** Why it is refused: no entry, another attempt or a stopped one, the issuer gone, or a lease in somebody's hands. */
  lemma TakeRefusals(c: Core, s: Shared, a: AttemptId, self: ProcessId)
    requires s.journal.Valid() && a != NO_ATTEMPT && self != NO_PROCESS
    ensures var r := TakeRun(c, s, a, self).result;
            && (r == Err(NoJournal) <==> s.journal == Missing)
            && (r == Err(Stale) <==> s.journal.Present?
                                     && (s.journal.owner.attempt != a || s.journal.owner.phase == Phase.Stopping))
            && (r == Err(IssuerGone) ==> s.journal.Present? && s.journal.owner.phase == Phase.Pending
                                         && !(s.issuer.holder.Some? && s.issuer.record
                                            == Some(LeaseRecord(a, s.journal.owner.issuer))))
            && (r == Err(StillOwned) ==> s.journal.Present? && s.journal.owner.phase == Phase.Attached
                                         && s.journal.owner.extension != Some(self) && s.extension.holder.Some?)
            && (r == Err(LeaseBusy) ==> s.journal.Present? && s.extension.holder.Some?
                                        && (s.journal.owner.phase == Phase.Pending || s.journal.owner.extension == Some(self)))
            && r != Err(AlreadyTerminal)
  {
  }

  /** Announcing: the attempt is attached to this process, and a start or a new owner is published. */
  lemma AnnouncesOwner(c: Core, env: Env, a: AttemptId, self: ProcessId)
    ensures var (d, e) := (Sync(c, env), BindPublish(c, env, a, self).0);
            var s := d.core.session;
            && (BindPublish(c, env, a, self).1 <==> c.session.attempt == a)
            && (c.session.attempt != a ==> e == d)
            && (c.session.attempt == a ==>
                  var starts := s.outcome == Outcome.Pending && s.starting && !s.running;
                  var t := s.(owner := self, attached := true, delivery := s.delivery || !s.attached || starts,
                              cleanup := s.attached && s.cleanup);
                  var told := d.core.(session := t, watch :=
                      d.core.watch.(recoverable := s.attached && d.core.watch.recoverable));
                  if !s.attached || starts || s.owner != self then Announces(d, told, e) else e == Eff(told, d.published))
  {
    hide Apply;
    SyncFacts(c, env);
    hide Sync;
  }

  /** So a bind succeeds exactly when the attempt may be taken up and its entry taken. */
  lemma BindSucceedsIff(c: Core, s: Shared, env: Env, a: AttemptId, self: ProcessId)
    requires s.journal.Valid() && a != NO_ATTEMPT && self != NO_PROCESS
    ensures var (r, d) := (BindRun(c, s, env, a, self), BindAdopt(c, env, a).0.core);
            && (r.result.Ok? <==>
                  && !env.isUi && Offers(env, a) && !(c.session.attempt == a && !Unfinished(c.session.outcome))
                  && MayTake(d, Kept(s, self, c, d), a, self))
            && (r.result.Ok? ==>
                  && r.shared.journal == Present(Owner(a, s.journal.owner.issuer, Some(self), Phase.Attached))
                  && r.core.session.attempt == a && r.core.session.attached && r.core.session.owner == self)
            && (r.result.Err? ==> r.shared.journal == s.journal)
  {
    AdoptsIff(c, env, a);
    var (e, ok) := BindAdopt(c, env, a);
    if ok {
      var t := Kept(s, self, c, e.core);
      TakesIff(e.core, t, a, self);
      var took := TakeRun(e.core, t, a, self);
      AnnouncesOwner(took.core, env, a, self);
      SyncFacts(took.core, env);
    }
    hide BindAdopt, TakeRun, BindPublish, Sync, Apply;
  }

  /** What may not be taken up has ended here, or is not offered. */
  lemma BindRefusals(c: Core, s: Shared, env: Env, a: AttemptId, self: ProcessId)
    requires !BindAdopt(c, env, a).1
    ensures var r := BindRun(c, s, env, a, self);
            r.result == if r.core.session.attempt == a && !Unfinished(r.core.session.outcome) then Err(AlreadyTerminal)
                else Err(Stale)
  {
    hide BindAdopt, TakeRun, BindPublish;
  }

  /** What adoption and announcement drop is free in the store; a refusal takes nothing. */
  lemma BindFrees(c: Core, s: Shared, env: Env, a: AttemptId, self: ProcessId)
    requires s.journal.Valid() && a != NO_ATTEMPT && self != NO_PROCESS
    ensures var (r, (d, ok)) := (BindRun(c, s, env, a, self), BindAdopt(c, env, a));
            && (r.result.Err? ==> LeasesFreed(s, self, c, d.core, r.shared))
            && (r.result.Ok? ==>
                  && (d.core.issuerLease.Some? && r.core.issuerLease.None? && s.issuer.holder == Some(self) ==>
                     r.shared.issuer.holder == None)
                  && (r.core.extensionLease.None? && (d.core.extensionLease.None? || s.extension.holder == Some(self)) ==>
                        r.shared.extension.holder == None)
                  && (r.core.extensionLease.Some? && d.core.extensionLease.None? ==>
                        r.shared.extension == Lease(Some(self), Some(LeaseRecord(a, self)))))
  {
    var (d, ok) := BindAdopt(c, env, a);
    if ok {
      var t := Kept(s, self, c, d.core);
      KeptReleases(s, self, c, d.core);
      TakesIff(d.core, t, a, self);
      AnnouncesOwner(TakeRun(d.core, t, a, self).core, env, a, self);
      AdoptKeepsAttempt(c, env, a);
    }
    hide BindAdopt, TakeRun, BindPublish, Sync, Apply;
  }

  lemma AdoptKeepsAttempt(c: Core, env: Env, a: AttemptId)
    ensures BindAdopt(c, env, a).1 ==> BindAdopt(c, env, a).0.core.session.attempt == a
  {
    hide Apply;
  }

  // ------------------------------------------------ acknowledging and failing

  /** Idle and ended, for attempt a. */
  predicate Ended(s: Session, a: AttemptId) {
    a != NO_ATTEMPT && s.attempt == a && !Unfinished(s.outcome) && !s.running && !s.starting
  }

  /** Everything this core held of its attempt is given up. */
  function Cleared(s: Session): Session {
    s.(cleanup := true, attached := false, stopRequested := true, owner := NO_PROCESS)
  }

  /**
   An acknowledgement succeeds exactly for an ended attempt that is already clean,
   or whose entry names this process, as the core does, while it holds the lease;
   then the entry is gone and both leases are given up.
   */
  lemma AckSucceedsIff(c: Core, s: Shared, env: Env, a: AttemptId, self: ProcessId)
    ensures var (r, d) := (AckRun(c, s, env, a, self), Sync(c, env));
            var t := d.core.session;
            var owns := d.core.extensionLease.Some? && s.journal.AttachedTo(a, self) && t.owner == self;
            && (r.result == Ok(true) <==> Ended(t, a) && (t.cleanup || owns))
            && (r.result.Err? <==> Ended(t, a) && !t.cleanup && !owns
                                   && (d.core.extensionLease.None? || s.journal == Missing || s.journal.owner.attempt == a))
            && if Ended(t, a) && !t.cleanup && owns then
                 && r.shared.journal == Missing
                 && GivenUp(s.issuer, self, c.issuerLease.Some?, r.shared.issuer)
                 && GivenUp(s.extension, self, c.extensionLease.Some?, r.shared.extension)
                 && Announces(d, d.core.(session := Cleared(t), watch := d.core.watch.(recoverable := false),
                                         issuerLease := None, extensionLease := None), Eff(r.core, r.published))
               else
                 r.core == d.core && r.published == d.published && LeasesFreed(s, self, c, r.core, r.shared)
  {
    hide Apply;
    SyncFacts(c, env);
    hide Sync;
  }

  /** Failing succeeds exactly for this pending attempt; the waiver needs its entry still pending, and deletes it. */
  lemma FailSucceedsIff(c: Core, s: Shared, env: Env, a: AttemptId, req: bool, self: ProcessId)
    ensures var (r, d) := (FailRun(c, s, env, a, req, self), Sync(c, env));
            var t := d.core.session;
            var clean := t.cleanup || req;
            && (r.result <==>
                  && a != NO_ATTEMPT && t.attempt == a && t.outcome == Outcome.Pending
                  && (req ==> !t.attached && s.journal.Present? && s.journal.owner.attempt == a
                              && s.journal.owner.phase == Phase.Pending && s.journal.owner.extension == None))
            && if r.result then
                 && r.shared.journal == (if req then Missing else s.journal)
                 && GivenUp(s.issuer, self, c.issuerLease.Some? && r.core.issuerLease.None?, r.shared.issuer)
                 && Announces(d, d.core.(session := t.(outcome := Failed, starting := false, running := false, cleanup := clean),
                                         issuerLease := if clean then None else d.core.issuerLease,
                                         extensionLease := if clean then None else d.core.extensionLease),
                                             Eff(r.core, r.published))
               else
                 r.core == d.core && r.published == d.published && LeasesFreed(s, self, c, r.core, r.shared)
  {
    hide Apply;
    SyncFacts(c, env);
    hide Sync;
  }

  /** A cancel succeeds exactly for this pending attempt. */
  lemma CancelSucceedsIff(c: Core, env: Env, a: AttemptId)
    ensures var (d, r) := (Sync(c, env), CancelStart(c, env, a));
            var t := d.core.session;
            && (r.1 <==> a != NO_ATTEMPT && t.attempt == a && t.outcome == Outcome.Pending)
            && if r.1 then Announces(d, d.core.(session := t.(outcome := Cancelled, starting := false, running := false)), r.0)
               else r.0 == d
  {
    hide Sync;
  }

  /** A stop request succeeds exactly when the attempt is clean, or attached, unfinished and not lost to the watchdog. */
  lemma RequestSucceedsIff(c: Core, env: Env, a: AttemptId)
    ensures var (d, r) := (Sync(c, env), RequestStop(c, env, a));
            var t := d.core.session;
            var marks := t.attached && !d.core.watch.recoverable && Unfinished(t.outcome) && !t.cleanup;
            && (r.1 <==> a != NO_ATTEMPT && t.attempt == a && (t.cleanup || marks))
            && (r.1 && marks ==>
                  var calm := d.core.(recovery := Recovery(false, d.core.recovery.attempt, d.core.recovery.attempts, None));
                  if t.stopRequested then r.0 == Eff(calm, d.published)
                  else Announces(d, calm.(session := t.(stopRequested := true)), r.0))
            && (!(r.1 && marks) ==> r.0 == if a == NO_ATTEMPT then Eff(c, []) else d)
  {
    hide Sync;
  }

  // --------------------------------------------------------- claiming a stop

  /** No attempt is carried, or its cleanup is done. */
  predicate Open(c: Core) { c.session.attempt == NO_ATTEMPT || c.session.cleanup }

  /** The owner read may be stopped from this core: it agrees with the retained fence and with the carried attempt. */
  predicate Agrees(c: Core, o: Owner) {
    (c.fence.epoch != 0 ==> c.fence.attempt == o.attempt) && (!Open(c) ==> c.session.attempt == o.attempt)
  }

  /** The journal the claim races on still has that owner's attempt, not Pending under another issuer. */
  predicate StillThere(o: Owner, raced: Journal) {
    raced.Present? && raced.owner.attempt == o.attempt && (raced.owner.phase == Phase.Pending ==> raced.owner.issuer == o.issuer)
  }

  /** What the race leaves: the pending entry it fences, or what is there. */
  function Fencing(o: Owner, raced: Journal): Journal {
    if o.phase == Phase.Pending && raced.Present? && raced.owner.attempt == o.attempt && raced.owner.issuer == o.issuer
       && raced.owner.phase == Phase.Pending
    then Present(raced.owner.(phase := Phase.Stopping)) else raced
  }

  /**
   A claim succeeds exactly at the current intent with no OS stop in flight, for a
   retained fence whose owner is gone, or for an owner this core agrees with that
   is stopped or attached or is still there to be fenced; it leaves exactly that
   attempt fenced. With nothing to stop it says so, exactly when there is none.
   */
  lemma ClaimSucceedsIff(c: Core, s: Shared, env: Env, raced: Journal, epoch: nat, self: ProcessId)
    requires s.journal.Valid() && raced.Valid()
    ensures var (r, d) := (ClaimRun(c, s, env, raced, epoch, self), Sync(c, env));
            var may, j := epoch != 0 && c.fence.intent == epoch && !c.fence.inFlight, s.journal;
            && (r.result == NothingToStop <==> may && j == Missing && Open(d.core) && c.fence.epoch == 0)
            && (r.result.Claimed? <==>
                  may && if j == Missing then Open(d.core) && c.fence.epoch != 0
                         else Agrees(d.core, j.owner) && (j.owner.phase == Phase.Pending ==> StillThere(j.owner, raced)))
            && (r.result.Claimed? ==>
                  && r.result.attempt == (if j == Missing then c.fence.attempt else j.owner.attempt)
                  && r.core.fence == StopFence(epoch, epoch, r.result.attempt, false))
            && (!r.result.Claimed? ==> r.core.fence == c.fence)
  {
    hide Apply;
    SyncFacts(c, env);
    SyncBooks(c, env);
    hide Sync;
  }

  /** The claim gets as far as the race. */
  predicate Races(c: Core, d: Core, j: Journal, epoch: nat) {
    epoch != 0 && c.fence.intent == epoch && !c.fence.inFlight && j.Present? && Agrees(d, j.owner)
  }

  /** The journal moves only by the fence. */
  lemma ClaimMovesOnlyTheFence(c: Core, s: Shared, env: Env, raced: Journal, epoch: nat, self: ProcessId)
    requires s.journal.Valid() && raced.Valid()
    ensures ClaimRun(c, s, env, raced, epoch, self).shared.journal
            == if Races(c, Sync(c, env).core, s.journal, epoch) then Fencing(s.journal.owner, raced) else s.journal
  {
    hide Apply;
    SyncBooks(c, env);
    hide Sync, ClaimMark, ClaimCommit;
  }

  /** What the lane read dropped is free, and the claim itself takes and drops nothing. */
  lemma ClaimFrees(c: Core, s: Shared, env: Env, raced: Journal, epoch: nat, self: ProcessId)
    ensures var r := ClaimRun(c, s, env, raced, epoch, self);
            LeasesFreed(s, self, c, r.core, r.shared.(journal := s.journal))
  {
    hide Apply;
    SyncFacts(c, env);
    hide Sync, FencePendingStop, ClaimStillOwned;
  }

  /** Before it races, it marks its own attempt as stopped and publishes that; otherwise only the fence moves. */
  lemma ClaimMarksFirst(c: Core, s: Shared, env: Env, raced: Journal, epoch: nat, self: ProcessId)
    ensures var (r, d) := (ClaimRun(c, s, env, raced, epoch, self), Sync(c, env));
            var t := d.core.session;
            var live := t.outcome != Outcome.Pending;
            var e := Eff(r.core, r.published);
            if epoch == 0 || c.fence.intent != epoch || c.fence.inFlight then e == Eff(c, [])
            else if Races(c, d.core, s.journal, epoch) && !Open(d.core) then
              Announces(d, d.core.(fence := r.core.fence,
                                   session := t.(stopRequested := true, outcome := if live then t.outcome else Cancelled,
                                                 starting := live && t.starting, running := live && t.running)), e)
            else e == Eff(d.core.(fence := r.core.fence), d.published)
  {
    hide Apply;
    SyncBooks(c, env);
    hide Sync, FencePendingStop, ClaimStillOwned;
  }

  // ----------------------------------------------------- recovering an attempt

  /**
   The owner that a round read is gone: stopped unattached, its issuer's lease free or nobody
   attached, or its own lease free.
   */
  predicate Gone(o: Owner, r: Round, unattached: bool) {
    match o.phase
    case Stopping => o.extension == None
    case Pending => o.extension == None && (unattached || r.issuer.holder == None)
    case Attached => o.extension.Some? && r.extension.holder == None
  }

  /** It is alive: exactly its own record holds the lease that would prove it gone. */
  predicate Alive(o: Owner, r: Round, unattached: bool) {
    match o.phase
    case Stopping => false
    case Pending => o.extension == None && !unattached
      && r.issuer == Lease(r.issuer.holder, Some(LeaseRecord(o.attempt, o.issuer)))
                    && r.issuer.holder.Some?
    case Attached => o.extension.Some? && r.extension == Lease(r.extension.holder,
      Some(LeaseRecord(o.attempt, o.extension.value)))
                     && r.extension.holder.Some?
  }

  /**
   A round finishes the recovery exactly when the attempt is clean here, or is
   found clean after the entry is gone, or the owner it read is gone and exactly
   that entry is still there to delete. It asks for another exactly when the entry
   changed under it, or the owner is still alive and there is time left.
   */
  lemma RoundFinishesIff(c: Core, j: Journal, r: Round, a: AttemptId)
    requires a != NO_ATTEMPT && r.atRead.Valid()
    ensures var ((e, k, done), d) := (RecoverRound(c, j, r, a), Sync(c, r.snapshot));
            var s := d.core.session;
            var clean, unattached := s.attempt == a && s.cleanup, s.attempt == a && !s.attached && s.stopRequested
                && !Unfinished(s.outcome);
            var after := Sync(d.core, r.finish).core.session;
            var read := r.atRead.Present? && r.atRead.owner.attempt == a;
            var there := r.atDelete.Present? && r.atDelete.owner.attempt == a && read
                && r.atDelete.owner.extension == r.atRead.owner.extension;
            && (done == Some(RecoveredDone) <==>
                  clean || (r.atRead == Missing && after.attempt == a && after.cleanup)
                  || (read && Gone(r.atRead.owner, r, unattached) && there))
            && (done == None <==>
                  !clean && read && ((Gone(r.atRead.owner, r, unattached) && !there)
                                     || (Alive(r.atRead.owner, r, unattached) && !r.expired)))
            && (done == Some(RecoveredNot) <==>
                  !clean && r.atRead.Present? && (r.atRead.owner.attempt != a
                      || (Alive(r.atRead.owner, r, unattached) && r.expired)))
            && k == (if !clean && read && Gone(r.atRead.owner, r, unattached) then (if there then Missing else r.atDelete) else j)
            && (!clean && read && Gone(r.atRead.owner, r, unattached) && there ==>
                  e == Eff(RecoveryCommit(d.core, r.finish, a).core, d.published + RecoveryCommit(d.core, r.finish, a).published))
  {
    hide Apply, Sync, RecoveryCommit;
  }

  /**
   The loop makes its rounds one after the other, each on what the one before left,
   and ends with the first that decides; without one it is still waiting.
   */
  lemma {:induction false} FirstDecisionCounts(c: Core, j: Journal, rounds: seq<Round>, a: AttemptId)
    ensures exists cores: seq<Core>, journals: seq<Journal>, n: nat ::
              RoundsLeadTo(c, j, rounds, a, cores, journals, n)
                  && DecidedAfter(RecoverRun(c, j, rounds, a), rounds, a, cores, journals, n)
    decreases |rounds|
  {
    hide RecoverRound;
    if rounds == [] {
      assert RoundsLeadTo(c, j, rounds, a, [c], [j], 0) && DecidedAfter(RecoverRun(c, j, rounds, a), rounds, a, [c], [j], 0);
    } else {
      var (e, k, done) := RecoverRound(c, j, rounds[0], a);
      if done.Some? {
        assert RoundsLeadTo(c, j, rounds, a, [c], [j], 0) && DecidedAfter(RecoverRun(c, j, rounds, a), rounds, a, [c], [j], 0);
      } else {
        FirstDecisionCounts(e.core, k, rounds[1..], a);
        var cores, journals, n: nat :| RoundsLeadTo(e.core, k, rounds[1..], a, cores, journals, n)
          && DecidedAfter(RecoverRun(e.core, k, rounds[1..], a), rounds[1..], a, cores, journals, n);
        OneRoundMore(c, j, rounds, a, cores, journals, n);
      }
    }
  }

  /** The first n rounds decide nothing, and lead from (c, j) over these cores and journals. */
  predicate RoundsLeadTo(c: Core, j: Journal, rounds: seq<Round>, a: AttemptId, cores: seq<Core>, journals: seq<Journal>,
      n: nat) {
    && n <= |rounds| && |cores| == n + 1 && |journals| == n + 1 && cores[0] == c && journals[0] == j
    && forall m :: 0 <= m < n ==> Undecided(cores[m], journals[m], rounds[m], a, cores[m + 1], journals[m + 1])
  }

  predicate Undecided(c: Core, j: Journal, r: Round, a: AttemptId, d: Core, k: Journal) {
    var (e, l, done) := RecoverRound(c, j, r, a);
    done == None && e.core == d && l == k
  }

  /** What is left once these rounds are over: what the next one decides, if there is one. */
  predicate DecidedAfter(
    out: (Eff, Journal, Recovered), rounds: seq<Round>, a: AttemptId, cores: seq<Core>, journals: seq<Journal>, n: nat
  ) {
    && n <= |rounds| && |cores| == n + 1 && |journals| == n + 1
    && if n == |rounds| then out.0.core == cores[n] && out.1 == journals[n] && out.2 == RecoveredWaiting
       else
         var (e, k, done) := RecoverRound(cores[n], journals[n], rounds[n], a);
         done == Some(out.2) && out.0.core == e.core && out.1 == k
  }

  lemma OneRoundMore(c: Core, j: Journal, rounds: seq<Round>, a: AttemptId, cores: seq<Core>, journals: seq<Journal>, n: nat)
    requires rounds != [] && RecoverRound(c, j, rounds[0], a).2 == None
    requires var (e, k, _) := RecoverRound(c, j, rounds[0], a);
             && RoundsLeadTo(e.core, k, rounds[1..], a, cores, journals, n)
             && DecidedAfter(RecoverRun(e.core, k, rounds[1..], a), rounds[1..], a, cores, journals, n)
    ensures RoundsLeadTo(c, j, rounds, a, [c] + cores, [j] + journals, n + 1)
    ensures DecidedAfter(RecoverRun(c, j, rounds, a), rounds, a, [c] + cores, [j] + journals, n + 1)
  {
    hide RecoverRound;
    forall m | 0 <= m < n + 1
      ensures Undecided(([c] + cores)[m], ([j] + journals)[m], rounds[m], a, ([c] + cores)[m + 1], ([j] + journals)[m + 1])
    {
      if m > 0 {
        assert rounds[m] == rounds[1..][m - 1];
        assert Undecided(cores[m - 1], journals[m - 1], rounds[1..][m - 1], a, cores[m], journals[m]);
      }
    }
  }

  /** Closing: the attempt it recovered is ended and cleared, unless the core moved on or is done. */
  lemma RecoveryCloses(c: Core, env: Env, a: AttemptId)
    ensures var (d, e) := (Sync(c, env), RecoveryCommit(c, env, a));
            var s := d.core.session;
            if s.attempt == a && !s.cleanup then
              Announces(d, d.core.(session := Cleared(s.(running := false, starting := false, outcome := if s.outcome == Failed
                  then Failed else Cancelled)),
                                   watch := d.core.watch.(recoverable := false), issuerLease := None, extensionLease := None), e)
            else e == d
  {
    hide Sync;
  }

  // -------------------------------------------- the Extension's own lifecycle

  /** An attempt that still owes work: ours, attached and unfinished. */
  predicate Working(s: Session, a: AttemptId) {
    a != NO_ATTEMPT && s.attempt == a && s.attached && (s.outcome == Outcome.Pending || s.outcome == Connected)
  }

  lemma StopSucceedsIff(c: Core, env: Env, a: AttemptId)
    ensures var (d, r) := (Sync(c, env), StopSession(c, env, a));
            var t := d.core.session;
            && (r.1 <==> c.session.attempt == a)
            && if r.1 then
                 Announces(d, d.core.(session := t.(outcome := if t.outcome == Failed then Failed else Cancelled,
                                                    starting := false, running := false, engine := None, stopRequested := true)),
                                                        r.0)
               else r.0 == d
  {
    hide Apply;
    SyncFacts(c, env);
    hide Sync;
  }

  lemma StopFinishLaw(c: Core, env: Env, a: AttemptId)
    ensures var (t, e) := (c.session, StopFinish(c, env, a));
            if t.attempt == a then
              Announces(Eff(c, []), c.(session := t.(outcome := if t.outcome == Outcome.Pending then Cancelled else t.outcome,
                                                     starting := false, running := false, engine := None)), e)
            else e == Eff(c, [])
  {
  }

  /** A worker's start is committed exactly while the attempt still owes work, and then it is Connected and running. */
  lemma CommitSucceedsIff(c: Core, env: Env, a: AttemptId, engine: Engine)
    ensures var (d, r, x) := (Sync(c, env), StartCommit(c, env, a), StartExternal(c, env, a, engine));
            var t := d.core.session;
            && (r.1 <==> Working(t, a)) && (x.1 <==> engine != Meow && Working(t, a))
            && (if r.1 then Announces(d, d.core.(session :=
               t.(outcome := Connected, starting := false, running := true, engine := Some(Meow))), r.0)
                else r.0 == d)
            && (if x.1 then Announces(d, d.core.(session :=
               t.(outcome := Connected, starting := false, running := true, engine := Some(engine))), x.0)
                else x.0 == if engine == Meow then Eff(c, []) else d)
  {
    hide Sync;
  }

  lemma SetSucceedsIff(c: Core, env: Env, a: AttemptId, starting: bool)
    ensures var (d, r, x) := (Sync(c, env), SetStarting(c, env, a, starting), SetFailed(c, env, a));
            var t := d.core.session;
            && (r.1 <==> Working(t, a) && (starting ==> t.outcome == Outcome.Pending)) && (x.1 <==> Working(t, a))
            && (if r.1 then Announces(d, d.core.(session := t.(starting := starting, running := t.running && !starting)), r.0)
               else r.0 == d)
            && (if x.1 then Announces(d, d.core.(session := t.(outcome := Failed, starting := false, running := false),
                                                 watch := d.core.watch.(staleSince := None)), x.0)
                else x.0 == d)
  {
    hide Sync;
  }

  /** A worker's exit fails exactly its own unfinished attempt. */
  lemma NativeExitLaw(c: Core, env: Env, a: AttemptId)
    ensures var (t, e) := (c.session, NativeExit(c, env, a));
            if t.attempt == a && Unfinished(t.outcome) then
              Announces(Eff(c, []), c.(session := t.(outcome := Failed, starting := false, running := false),
                                       watch := c.watch.(staleSince := None)), e)
            else e == Eff(c, [])
  {
  }

  /** What a tick reports, and what it leaves, for an attempt that is ours. */
  lemma TickLaw(c: Core, env: Env, a: AttemptId, free: bool)
    ensures var (d, (e, beat)) := (Sync(c, env), Tick(c, env, a, free));
            var t := d.core.session;
            var due := c.session.attempt == a && !t.stopRequested && Unfinished(t.outcome) && t.attached;
            var external := t.engine.Some? && t.engine.value != Meow && t.running && t.outcome == Connected;
            var judged := due && !external && free;
            && (beat == BeatStopping <==> c.session.attempt == a && t.stopRequested)
            && (c.session.attempt == a && !t.stopRequested && !Unfinished(t.outcome) ==>
                  beat == if t.outcome == Failed then BeatFailed else BeatDisconnected)
            && (beat == BeatError <==> c.session.attempt != a || (!t.stopRequested && Unfinished(t.outcome) && !t.attached))
            && (!due ==> e == d)
            && (due && !judged ==> Announces(d, d.core, e) && beat == if t.running && t.outcome == Connected then BeatConnected
               else BeatStarting)
            && (judged && env.native == NativeRunning ==>
                  && beat == BeatConnected
                  && Announces(d, d.core.(session := t.(running := true, starting := false,
                                                        outcome := if t.outcome == Outcome.Pending then Connected
                                                            else t.outcome)), e))
            && (judged && (env.native == NativeFailed
                           || (env.native == NativeStopped && t.running && !(t.outcome == Outcome.Pending && t.starting))) ==>
                  && beat == BeatFailed
                  && Announces(d, d.core.(session := t.(outcome := Failed, running := false, starting := false),
                                          watch := d.core.watch.(staleSince := None)), e))
            && (judged && env.native == NativeStopped && t.outcome == Outcome.Pending && t.starting ==>
                  beat == BeatStarting && Announces(d, d.core, e))
            && (judged && env.native == NativeStopped && !t.running && !(t.outcome == Outcome.Pending && t.starting) ==>
                  beat == BeatDisconnected && e == d)
  {
    hide Apply;
    SyncFacts(c, env);
    hide Sync;
  }

  // ------------------------------------------------------ automatic recovery

  /**
   An owner is lost exactly when the entry still names the attached owner of this unfinished
   attempt; a connected one asks for recovery.
   */
  lemma OwnerLostLaw(c: Core, env: Env, j: Journal)
    ensures var (t, e) := (c.session, OwnerLost(c, env, j));
            var lost := t.attached && !t.cleanup && (t.outcome == Outcome.Pending || t.outcome == Connected)
                        && j.Present? && j.owner.attempt == t.attempt && j.owner.phase == Phase.Attached
                           && j.owner.extension == Some(t.owner);
            if lost then
              Announces(Eff(c, []), c.(session := t.(outcome := Failed, starting := false, running := false),
                                       watch := c.watch.(staleSince := None),
                                       recovery := if t.running && t.outcome == Connected && !t.stopRequested
                                           && c.recovery.attempt != t.attempt
                                                   then Recovery(true, t.attempt, 0, None) else c.recovery), e)
            else e == Eff(c, [])
  {
  }

  /** A recovery is claimed exactly when one is due: asked for, or an orphan found by a core that never ran anything. */
  lemma RecoveryClaimedIff(c: Core, env: Env, hasProfile: bool, orphan: Option<AttemptId>)
    ensures var (d, dead) := ClaimRecovery(c, env, hasProfile, orphan);
            var idle := env.native != NativeRunning && !c.session.running && !c.session.starting && hasProfile;
            var cold := !c.recovery.pending && c.session.attempt == NO_ATTEMPT && c.recovery.attempt == NO_ATTEMPT
                && orphan.Some?;
            var asked := if cold then Recovery(true, orphan.value, 0, None) else c.recovery;
            var due := idle && asked.pending && asked.attempts < 3
                && (asked.notBefore.Some? ==> env.now >= asked.notBefore.value);
            && dead == (if due then Some(asked.attempt) else None)
            && d == c.(recovery := if due then Recovery(false, asked.attempt, asked.attempts + 1, None)
                                   else if !idle then c.recovery
                                   else if asked.pending && asked.attempts >= 3 then asked.(pending := false, notBefore := None)
                                   else asked)
  {
  }

  lemma RearmLaw(c: Core, env: Env)
    ensures Rearm(c, env) ==
            if env.native != NativeRunning && !c.session.running && !c.session.starting && c.recovery.attempts == 1
            then c.(recovery := Recovery(true, c.recovery.attempt, 1, Some(env.now + 10_000)))
            else if env.native != NativeRunning && !c.session.running && !c.session.starting && c.recovery.attempts == 2
            then c.(recovery := Recovery(true, c.recovery.attempt, 2, Some(env.now + 30_000)))
            else c
  {
  }

  // ------------------------------------------------------ intent and OS stop

  lemma IntentLaw(c: Core)
    ensures AdvanceIntent(c) ==
            if c.fence.intent < 0xFFFF_FFFF_FFFF_FFFF
            then (c.(fence := c.fence.(intent := c.fence.intent + 1)), Some(c.fence.intent + 1)) else (c, None)
  {
  }

  /** An OS stop is dispatched exactly for the retained fence of the current intent, or without a fence for no attempt. */
  lemma OsStopIff(c: Core, epoch: nat, a: AttemptId)
    ensures var ((d, ok), (g, done), (h, failed)) := (BeginOsStop(c, epoch, a), CompleteOsStop(c, epoch, a),
            FailOsStop(c, epoch, a));
            && (ok <==> epoch != 0 && c.fence.intent == epoch && !c.fence.inFlight
                        && ((c.fence.epoch == 0 && a == NO_ATTEMPT) || (c.fence.epoch == epoch && c.fence.attempt == a)))
            && d == (if ok then c.(fence := StopFence(epoch, epoch, a, true)) else c)
            && (done <==> c.fence == StopFence(c.fence.intent, epoch, a, true)) && (failed <==> done)
            && g == (if done then c.(fence := StopFence(c.fence.intent, 0, NO_ATTEMPT, false)) else c)
            && h == (if failed then c.(fence := StopFence(c.fence.intent, epoch, a, false)) else c)
  {
  }

  /** The final check of a queued stop: the retained fence of the current intent, not in flight; then its dispatch succeeds. */
  lemma StopCurrentIff(c: Core, epoch: nat, a: AttemptId)
    ensures StopCurrent(c, epoch, a) <==> epoch != 0 && c.fence == StopFence(epoch, epoch, a, false)
    ensures StopCurrent(c, epoch, a) ==> BeginOsStop(c, epoch, a).1
  {
  }

  /** A new region says nothing yet of the peer; the session stays. */
  lemma AttachLaw(c: Core)
    ensures AttachLane(c) == c.(watch := Watch(0, None, None, false))
  {
  }

  lemma InitialLaw()
    ensures INITIAL.session.attempt == NO_ATTEMPT && Open(INITIAL) && !INITIAL.session.running
            && INITIAL.fence == StopFence(0, 0, NO_ATTEMPT, false)
    ensures INITIAL.issuerLease == None && INITIAL.extensionLease == None && !INITIAL.recovery.pending
            && INITIAL.watch.remoteUpdatedAt == 0
  {
  }
}
