/**
 The steps of OwnershipWorld that are no part of a chain of OwnershipMethods:
 single calls, births and deaths, what of a publication reaches a lane, and a
 round of the recovery with nobody in between.
 */
module OwnershipLaws {
  import opened Wrappers
  import opened OwnerJournal
  import opened PlatformState
  import opened PlatformRuns
  import opened PlatformLaws
  import opened SessionMoves
  import opened OwnershipWorld
  import opened OwnershipMethods

  // ---------------------------------------------------------- births and deaths

  /** A process is born with a clean core; a UI process brings its own empty region, and there is one UI process at a time. */
  lemma SpawnLaw(w: World, p: ProcessId, role: Role)
    ensures var v := Step(w, Spawn(p, role));
            var busy := role == Ui && exists q :: q in w.procs && w.procs[q].role == Ui;
            if p != NO_PROCESS && p !in w.procs && p !in w.dead && p !in w.lanes && !busy then
              && v == w.(procs := v.procs, lanes := v.lanes)
              && v.procs == w.procs[p := v.procs[p]]
              && v.procs[p].role == role && v.procs[p].pc == Free && v.procs[p].core == INITIAL
              && (role == Ui ==> v.procs[p].region == p && v.lanes == w.lanes[p := Lanes(None, None)])
              && (role == Extension ==> v.procs[p].region == NO_PROCESS && v.lanes == w.lanes)
            else v == w
  {
  }

  /** A crash frees the flocks of the process and forgets its rounds; entry, lanes and everybody else stay. */
  lemma CrashLaw(w: World, p: ProcessId)
    requires p in w.procs
    ensures var v := Step(w, Crash(p));
            && v.procs == w.procs - {p} && v.dead == w.dead + {p} && v.journal == w.journal && v.lanes == w.lanes
            && GivenUp(w.issuer, p, true, v.issuer) && GivenUp(w.extension, p, true, v.extension)
            && (forall t :: t in v.tasks <==> t in w.tasks && t.process != p)
  {
  }

  /** An Extension joins the region of a UI process, dead or alive, and forgets what it knew of its peer. */
  lemma AttachStepLaw(w: World, p: ProcessId, region: ProcessId)
    ensures var v := Step(w, Attach(p, region));
            if MutexFree(w, p, Extension) && region in w.lanes then
              v == w.(procs := w.procs[p := Process(Extension, w.procs[p].core.(watch := Watch(0, None, None, false)), region,
                  Free)])
            else v == w
  {
  }

  // ---------------------------------------------------------------- publishing

  function OwnLane(w: World, pr: Process): Option<Frame> {
    if pr.region !in w.lanes then None
    else match pr.role
      case Ui => w.lanes[pr.region].ui
      case Extension => w.lanes[pr.region].extension
  }

  /** A move leaves in the own lane the published frame that landed, or what was there. */
  lemma LandsInOwnLane(w: World, p: ProcessId, m: Move, i: Input, pc: Pc)
    requires p in w.procs && w.procs[p].region in w.lanes
    ensures var (pr, v) := (w.procs[p], Act(w, p, m, i, pc));
            var frames := Do(pr.core, EnvOf(w, pr, i), m).published;
            OwnLane(v, pr) == if i.landed < |frames| then Some(frames[i.landed]) else OwnLane(w, pr)
  {
    hide Do, EnvOf;
  }

  // -------------------------------------------------------------- single calls

  /** Everybody may sync, republish, set or fail a start, cancel it, and ask for a stop. */
  predicate AnyonesCall(m: Move) {
    m.DoSync? || m.DoRepublish? || m.DoSetStarting? || m.DoSetFailed? || m.DoCancel? || m.DoRequestStop?
  }

  predicate ExtensionsCall(m: Move) {
    m.DoStopSession? || m.DoStopFinish? || m.DoStartCommit? || m.DoStartExternal? || m.DoTick? || m.DoNativeExit?
  }

  predicate UisCall(m: Move) {
    m.DoAdvanceIntent? || m.DoBeginOsStop? || m.DoCompleteOsStop? || m.DoFailOsStop? || m.DoRearm?
  }

  predicate MayCall(role: Role, m: Move) {
    AnyonesCall(m) || (role == Extension && ExtensionsCall(m)) || (role == Ui && UisCall(m))
  }

  lemma LocalIs(w: World, p: ProcessId, m: Move, i: Input)
    requires p in w.procs && w.procs[p].pc.Free?
    ensures Step(w, Local(p, m, i)) == if MayCall(w.procs[p].role, m) then Act(w, p, m, i, Free) else w
  {
    hide Act;
    assert Step(w, Local(p, m, i)) == LocalStep(w, p, m, i);
  }

  /** Whoever may make a call makes it, and a call changes nobody else. */
  lemma CallIsAMove(w: World, p: ProcessId, m: Move, i: Input)
    requires p in w.procs && w.procs[p].pc.Free?
    ensures var (pr, v) := (w.procs[p], Step(w, Local(p, m, i)));
            var e := Do(pr.core, EnvOf(w, pr, i), m);
            if MayCall(pr.role, m) then
              RanAlone(w, p, Run(e.core, e.published, Kept(SharedOf(w), p, pr.core, e.core), ()), v)
            else v == w
  {
    hide Do, EnvOf, OwnLaneOnly, Kept, Act;
    LocalIs(w, p, m, i);
    ActIs(w, p, m, i, Free);
    hide Step, LocalMove;
  }

  /** The calls are the operations they are named after. */
  lemma CallsOfAnyone(c: Core, env: Env, a: AttemptId)
    ensures Do(c, env, DoSync) == Sync(c, env) && Do(c, env, DoRepublish) == Persist(c, env)
    ensures Do(c, env, DoCancel(a)) == CancelStart(c, env, a).0 && Do(c, env, DoRequestStop(a)) == RequestStop(c, env, a).0
  {
    hide Sync, Persist, CancelStart, RequestStop;
  }

  lemma CallsOnStarts(c: Core, env: Env, a: AttemptId, b: bool, engine: Engine)
    ensures Do(c, env, DoSetStarting(a, b)) == SetStarting(c, env, a, b).0 && Do(c, env, DoSetFailed(a)) == SetFailed(c, env, a).0
    ensures Do(c, env, DoStartCommit(a)) == StartCommit(c, env, a).0
    ensures Do(c, env, DoStartExternal(a, engine)) == StartExternal(c, env, a, engine).0
  {
    hide SetStarting, SetFailed, StartCommit, StartExternal;
  }

  lemma CallsOfExtensions(c: Core, env: Env, a: AttemptId, b: bool)
    ensures Do(c, env, DoStopSession(a)) == StopSession(c, env, a).0 && Do(c, env, DoStopFinish(a)) == StopFinish(c, env, a)
    ensures Do(c, env, DoTick(a, b)) == Tick(c, env, a, b).0 && Do(c, env, DoNativeExit(a)) == NativeExit(c, env, a)
    ensures Do(c, env, DoAttachLane) == Eff(AttachLane(c), [])
  {
    hide StopSession, StopFinish, Tick, NativeExit, AttachLane;
  }

  lemma CallsOnTheFence(c: Core, env: Env, a: AttemptId, epoch: nat)
    ensures Do(c, env, DoAdvanceIntent) == Eff(AdvanceIntent(c).0, [])
    ensures Do(c, env, DoBeginOsStop(epoch, a)) == Eff(BeginOsStop(c, epoch, a).0, [])
    ensures Do(c, env, DoCompleteOsStop(epoch, a)) == Eff(CompleteOsStop(c, epoch, a).0, [])
    ensures Do(c, env, DoFailOsStop(epoch, a)) == Eff(FailOsStop(c, epoch, a).0, [])
  {
    hide AdvanceIntent, BeginOsStop, CompleteOsStop, FailOsStop;
  }

  lemma CallsOnRecovery(c: Core, env: Env, j: Journal, b: bool, orphan: Option<AttemptId>)
    ensures Do(c, env, DoOwnerLost(j)) == OwnerLost(c, env, j) && Do(c, env, DoRearm) == Eff(Rearm(c, env), [])
    ensures Do(c, env, DoClaimRecovery(b, orphan)) == Eff(ClaimRecovery(c, env, b, orphan).0, [])
  {
    hide Rearm, OwnerLost, ClaimRecovery;
  }

  // ------------------------------------------------------ liveness and delivery

  /** An owner is declared lost exactly under a released Extension lease, by the journal as it then stands. */
  lemma LoseOwnerIs(w: World, p: ProcessId, i: Input)
    requires MutexFree(w, p, Ui)
    ensures var (c, v) := (w.procs[p].core, Step(w, LoseOwner(p, i)));
            var e := OwnerLost(c, EnvOf(w, w.procs[p], i), w.journal);
            if w.extension.holder == None then RanAlone(w, p, Run(e.core, e.published, Kept(SharedOf(w), p, c, e.core), ()), v)
            else v == w
  {
    hide Do, EnvOf, OwnLaneOnly, Kept, OwnerLost;
    assert Step(w, LoseOwner(p, i)) == LoseOwnerStep(w, p, i);
    ActIs(w, p, DoOwnerLost(w.journal), i, Free);
    CallsOnRecovery(w.procs[p].core, EnvOf(w, w.procs[p], i), w.journal, false, None);
    hide Step, Act;
  }

  /** The attempt of an attached owner whose lease is free, while the app's lifecycle is active. */
  predicate IsOrphan(w: World, active: bool, orphan: Option<AttemptId>) {
    if active && w.journal.Present? && w.journal.owner.extension.Some? && w.journal.owner.phase == Phase.Attached
       && w.extension.holder == None
    then orphan == Some(w.journal.owner.attempt) else orphan == None
  }

  lemma ClaimAutoIs(w: World, p: ProcessId, hasProfile: bool, active: bool, i: Input, orphan: Option<AttemptId>)
    requires MutexFree(w, p, Ui) && IsOrphan(w, active, orphan)
    ensures var (c, v) := (w.procs[p].core, Step(w, ClaimAutoRecovery(p, hasProfile, active, i)));
            var d := ClaimRecovery(c, EnvOf(w, w.procs[p], i), hasProfile, orphan).0;
            RanAlone(w, p, Run(d, [], Kept(SharedOf(w), p, c, d), ()), v)
  {
    hide Do, EnvOf, OwnLaneOnly, Kept, ClaimRecovery;
    assert Step(w, ClaimAutoRecovery(p, hasProfile, active, i)) == ClaimAutoStep(w, p, hasProfile, active, i);
    ActIs(w, p, DoClaimRecovery(hasProfile, orphan), i, Free);
    CallsOnRecovery(w.procs[p].core, EnvOf(w, w.procs[p], i), Missing, hasProfile, orphan);
    hide Step, Act;
  }

  /**
   The Extension answers the final frame of exactly this attempt, in the lane it
   answers in: seen, not attached, idle, under a newer revision, with the outcome
   and the cleanup as the UI process wrote them.
   */
  lemma DeliveryLaw(w: World, p: ProcessId, region: ProcessId, a: AttemptId, wall: nat)
    requires a != NO_ATTEMPT
    ensures var v := Step(w, AckDelivery(p, region, a, wall));
            if At(w, p, Extension) && region in w.lanes && w.lanes[region].ui.Some?
               && w.lanes[region].ui.value.session.attempt == a && !Unfinished(w.lanes[region].ui.value.session.outcome)
            then
              var (f, lane) := (w.lanes[region].ui.value, v.lanes[region].extension);
              && v == w.(lanes := w.lanes[region := Lanes(Some(f), lane)])
              && lane.Some? && lane.value.updatedAt > f.updatedAt && lane.value.updatedAt >= wall
              && lane.value.session == f.session.(delivery := true, attached := false, starting := false, running := false)
            else v == w
  {
  }

  // ------------------------------------------------------------------ recovery

  /** One round, from the snapshot to the closing, each step on what the one before handed on. */
  function RecoverChain(w: World, p: ProcessId, a: AttemptId, i: Input, later: Input): World
    requires p in w.procs && w.journal.Present?
  {
    var unattached := RecoverySnapshot(w.procs[p].core, EnvOf(w, w.procs[p], i), a).2;
    var read := RecoverReadStep(RecoverStartStep(w, p, a, i), TaskSnapshot(p, a, unattached));
    var observed := RecoverObserveStep(read, TaskRead(p, a, unattached, w.journal.owner));
    var deleted := RecoverDeleteStep(observed, TaskProven(p, a, w.journal.owner.extension));
    RecoverFinishStep(deleted, TaskDeleted(p, a), later)
  }

  /** What the round decides between the snapshot and the closing. */
  lemma RoundAlone(w: World, p: ProcessId, a: AttemptId, unattached: bool, o: Owner)
    requires w.journal == Present(o) && w.journal.Valid()
    requires TaskSnapshot(p, a, unattached) in w.tasks && forall t :: t in w.tasks && t.process == p ==>
             t == TaskSnapshot(p, a, unattached)
    ensures var read := RecoverReadStep(w, TaskSnapshot(p, a, unattached));
            var observed := RecoverObserveStep(read, TaskRead(p, a, unattached, o));
            var v := RecoverDeleteStep(observed, TaskProven(p, a, o.extension));
            var gone := o.attempt == a && OwnerProof(o, w.issuer, w.extension, unattached).Proven?;
            var rest := w.tasks - {TaskSnapshot(p, a, unattached)};
            && v.tasks == (if gone then rest + {TaskDeleted(p, a)} else rest)
            && v == (if gone then Record(w, Missing) else w).(tasks := v.tasks)
  {
    hide OwnerProof;
    var rest := w.tasks - {TaskSnapshot(p, a, unattached)};
    assert rest - {TaskRead(p, a, unattached, o)} == rest && rest - {TaskProven(p, a, o.extension)} == rest;
    assert forall t :: rest + {t} - {t} == rest - {t};
  }

  /** The snapshot, and what it hands on. */
  lemma SnapshotAlone(w: World, p: ProcessId, a: AttemptId, i: Input)
    requires MutexFree(w, p, Ui) && a != NO_ATTEMPT
    ensures var (pr, v) := (w.procs[p], RecoverStartStep(w, p, a, i));
            var (e, done, unattached) := RecoverySnapshot(pr.core, EnvOf(w, pr, i), a);
            && v.procs == w.procs[p := pr.(core := e.core)] && v.dead == w.dead
            && v.tasks == (if done then w.tasks else w.tasks + {TaskSnapshot(p, a, unattached)})
            && SharedOf(v) == Kept(SharedOf(w), p, pr.core, e.core) && OwnLaneOnly(w, p, v)
  {
    hide Do, Act, RecoverySnapshot, OwnLaneOnly, EnvOf, Kept;
    RecoveryMoves(w.procs[p].core, EnvOf(w, w.procs[p], i), a);
    ActIs(w, p, DoRecoverySnapshot(a), i, Free);
    SameLanes(w, p, Act(w, p, DoRecoverySnapshot(a), i, Free), RecoverStartStep(w, p, a, i));
  }

  /** The closing, after the entry is deleted. */
  lemma ClosingAlone(w: World, p: ProcessId, v: World, a: AttemptId, later: Input)
    requires p in w.procs && OwnLaneOnly(w, p, v) && MutexFree(v, p, Ui) && TaskDeleted(p, a) in v.tasks
    requires v.procs[p].region == w.procs[p].region && w.procs[p].role == Ui
    ensures var (c, u) := (v.procs[p].core, RecoverFinishStep(v, TaskDeleted(p, a), later));
            var f := RecoveryCommit(c, EnvOf(w, w.procs[p], later), a);
            && u.procs == v.procs[p := v.procs[p].(core := f.core)] && u.dead == v.dead
               && u.tasks == v.tasks - {TaskDeleted(p, a)}
            && SharedOf(u) == Kept(SharedOf(v), p, c, f.core) && OwnLaneOnly(w, p, u)
  {
    hide Do, Act, RecoveryCommit, OwnLaneOnly, EnvOf, Kept;
    var r := Replace(v, TaskDeleted(p, a), {});
    SameLanes(w, p, v, r);
    SameEnv(w, p, r, later);
    RecoveryMoves(v.procs[p].core, EnvOf(w, w.procs[p], later), a);
    ActIs(r, p, DoRecoveryCommit(a), later, Free);
    OwnLaneTwice(w, p, r, Act(r, p, DoRecoveryCommit(a), later, Free));
  }

  /** A round of recover_platform_vpn_cleanup_after_confirmed_stop, uninterrupted, is the round of PlatformRuns. */
  lemma RecoverUninterrupted(w: World, p: ProcessId, a: AttemptId, i: Input, later: Input)
    requires MutexFree(w, p, Ui) && a != NO_ATTEMPT && w.journal.Present? && w.journal.Valid()
    requires forall t :: t in w.tasks ==> t.process != p
    ensures var (pr, v) := (w.procs[p], RecoverChain(w, p, a, i, later));
            var (e, done, unattached) := RecoverySnapshot(pr.core, EnvOf(w, pr, i), a);
            var s := Kept(SharedOf(w), p, pr.core, e.core);
            var (f, k, _) := RecoverRound(pr.core, w.journal,
                               Round(EnvOf(w, pr, i), s.journal, s.issuer, s.extension, s.journal, EnvOf(w, pr, later), false),
                                   a);
            && v.procs == w.procs[p := pr.(core := f.core)] && v.dead == w.dead && v.tasks == w.tasks
            && SharedOf(v) == Kept(s.(journal := k), p, e.core, f.core) && OwnLaneOnly(w, p, v)
  {
    hide RecoverStartStep, RecoverReadStep, RecoverObserveStep, RecoverDeleteStep, RecoverFinishStep, RecoverySnapshot,
      RecoveryCommit,
      OwnLaneOnly, EnvOf, OwnerProof;
    var (pr, o) := (w.procs[p], w.journal.owner);
    var (e, done, unattached) := RecoverySnapshot(pr.core, EnvOf(w, pr, i), a);
    SnapshotAlone(w, p, a, i);
    var w1 := RecoverStartStep(w, p, a, i);
    if done {
      NoTasks(w1, p, a, unattached, o);
    } else {
      RoundAlone(w1, p, a, unattached, o);
      assert w1.tasks - {TaskSnapshot(p, a, unattached)} == w.tasks;
      if o.attempt == a && OwnerProof(o, w1.issuer, w1.extension, unattached).Proven? {
        var w2 := Record(w1, Missing).(tasks := w.tasks + {TaskDeleted(p, a)});
        SameLanes(w, p, w1, w2);
        ClosingAlone(w, p, w2, a, later);
        assert w2.tasks - {TaskDeleted(p, a)} == w.tasks;
      } else {
        var w2 := w1.(tasks := w.tasks);
        SameLanes(w, p, w1, w2);
        NoTasks(w2, p, a, unattached, o);
      }
    }
  }

  lemma RecoveryMoves(c: Core, env: Env, a: AttemptId)
    ensures Do(c, env, DoRecoverySnapshot(a)) == RecoverySnapshot(c, env, a).0
    ensures Do(c, env, DoRecoveryCommit(a)) == RecoveryCommit(c, env, a)
  {
    hide RecoverySnapshot, RecoveryCommit;
  }

  lemma NoTasks(w: World, p: ProcessId, a: AttemptId, unattached: bool, o: Owner)
    requires forall t :: t in w.tasks ==> t.process != p
    ensures RecoverReadStep(w, TaskSnapshot(p, a, unattached)) == w
    ensures RecoverObserveStep(w, TaskRead(p, a, unattached, o)) == w
    ensures RecoverDeleteStep(w, TaskProven(p, a, o.extension)) == w
    ensures forall i :: RecoverFinishStep(w, TaskDeleted(p, a), i) == w
  {
    hide Act;
  }
}
