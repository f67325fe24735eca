/**
 The split actions of OwnershipWorld put together again: a process that is not
 interrupted does exactly what the method of PlatformCore does. So the theorems
 about every interleaving are about those methods, and the methods' contracts
 hold of the histories in which nobody interferes.
 */
module OwnershipMethods {
  import opened Wrappers
  import opened OwnerJournal
  import opened PlatformState
  import opened PlatformRuns
  import opened SessionMoves
  import opened OwnershipWorld
  import opened PlatformCore

  function SharedOf(w: World): Shared { Shared(w.journal, w.issuer, w.extension) }

  /** v is w after process p alone made run r: nothing else moved, and of the lanes at most p's own. */
  predicate RanAlone<R>(w: World, p: ProcessId, r: Run<R>, v: World)
    requires p in w.procs
  {
    && v.procs == w.procs[p := w.procs[p].(core := r.core)]
    && SharedOf(v) == r.shared && v.dead == w.dead && v.tasks == w.tasks
    && OwnLaneOnly(w, p, v)
  }

  predicate OwnLaneOnly(w: World, p: ProcessId, v: World)
    requires p in w.procs
  {
    var pr := w.procs[p];
    && v.lanes.Keys == w.lanes.Keys && PeerLane(v, pr) == PeerLane(w, pr)
    && forall g :: g in w.lanes && g != pr.region ==> v.lanes[g] == w.lanes[g]
  }

  /** What one move leaves of the world. */
  lemma ActIs(w: World, p: ProcessId, m: Move, i: Input, pc: Pc)
    requires p in w.procs
    ensures var pr, v := w.procs[p], Act(w, p, m, i, pc);
            var e := Do(pr.core, EnvOf(w, pr, i), m);
            && v.procs == w.procs[p := pr.(core := e.core, pc := pc)]
            && SharedOf(v) == Kept(SharedOf(w), p, pr.core, e.core)
            && v.dead == w.dead && v.tasks == w.tasks && v.issuerOf == w.issuerOf
            && OwnLaneOnly(w, p, v)
  {
    hide Do;
  }

  lemma SameEnv(w: World, p: ProcessId, v: World, i: Input)
    requires p in w.procs && OwnLaneOnly(w, p, v) && p in v.procs
    requires v.procs[p].region == w.procs[p].region && v.procs[p].role == w.procs[p].role
    ensures EnvOf(v, v.procs[p], i) == EnvOf(w, w.procs[p], i)
  {
  }

  // ------------------------------------------------------------------- begin

  function BeginChain(w: World, p: ProcessId, epoch: nat, a: AttemptId, i: Input): World {
    BeginCreateStep(BeginLeaseStep(BeginPickStep(BeginStartStep(w, p, epoch, i), p, a), p), p, i)
  }

  lemma BeginMoves(c: Core, env: Env, epoch: nat, a: AttemptId)
    ensures Do(c, env, DoBeginCheck(epoch)) == BeginCheck(c, env, epoch).0
    ensures Do(c, env, DoBeginCommit(a)) == BeginCommit(c, env, a)
  {
    hide BeginCheck, BeginCommit;
  }

  /** The check, up to the lease in hand. */
  lemma BeginUpToLease(w: World, p: ProcessId, epoch: nat, a: AttemptId, i: Input)
    requires MutexFree(w, p, Ui) && p != NO_PROCESS && a != NO_ATTEMPT && a !in w.issuerOf
    ensures var v := BeginLeaseStep(BeginPickStep(BeginStartStep(w, p, epoch, i), p, a), p);
            var (e, pass) := BeginCheck(w.procs[p].core, EnvOf(w, w.procs[p], i), epoch);
            var t := Kept(SharedOf(w), p, w.procs[p].core, e.core);
            var ok := pass && t.journal.Missing? && t.issuer.holder.None?;
            && v.procs == w.procs[p := w.procs[p].(core := e.core, pc := if ok then BeginLeased(a) else Free)]
            && SharedOf(v) == (if ok then t.(issuer := Lease(Some(p), Some(LeaseRecord(a, p)))) else t)
            && v.dead == w.dead && v.tasks == w.tasks && OwnLaneOnly(w, p, v)
  {
    hide Do, Act, BeginCheck, OwnLaneOnly;
    var pr := w.procs[p];
    var pass := BeginCheck(pr.core, EnvOf(w, pr, i), epoch).1;
    BeginMoves(pr.core, EnvOf(w, pr, i), epoch, a);
    ActIs(w, p, DoBeginCheck(epoch), i, if pass then BeginChecked else Free);
    var w1 := BeginStartStep(w, p, epoch, i);
    var w2 := BeginPickStep(w1, p, a);
    SameLanes(w, p, w1, w2);
    SameLanes(w, p, w1, BeginLeaseStep(w2, p));
  }

  lemma SameLanes(w: World, p: ProcessId, v: World, u: World)
    requires p in w.procs && OwnLaneOnly(w, p, v) && u.lanes == v.lanes
    ensures OwnLaneOnly(w, p, u)
  {
  }

  /** begin_platform_vpn_start_for_intent, uninterrupted. */
  lemma BeginUninterrupted(w: World, p: ProcessId, epoch: nat, a: AttemptId, i: Input)
    requires MutexFree(w, p, Ui) && p != NO_PROCESS && a != NO_ATTEMPT && a !in w.issuerOf
    ensures RanAlone(w, p, BeginRun(w.procs[p].core, SharedOf(w), EnvOf(w, w.procs[p], i), epoch, a, p),
                     BeginChain(w, p, epoch, a, i))
  {
    hide Do, Act, BeginCheck, BeginCommit, OwnLaneOnly, EnvOf, Kept;
    BeginUpToLease(w, p, epoch, a, i);
    var v := BeginLeaseStep(BeginPickStep(BeginStartStep(w, p, epoch, i), p, a), p);
    if v.procs[p].pc.BeginLeased? {
      CreateAlone(w, p, v, a, i);
    }
  }

  lemma CreateAlone(w: World, p: ProcessId, v: World, a: AttemptId, i: Input)
    requires At(v, p, Ui) && v.procs[p].pc == BeginLeased(a) && v.journal.Missing? && p != NO_PROCESS && a != NO_ATTEMPT
    requires p in w.procs && v.procs[p].region == w.procs[p].region && v.procs[p].role == w.procs[p].role && OwnLaneOnly(w, p, v)
    ensures var u := BeginCreateStep(v, p, i);
            var c := v.procs[p].core;
            var f := BeginCommit(c, EnvOf(w, w.procs[p], i), a);
            && u.procs == v.procs[p := v.procs[p].(core := f.core, pc := Free)]
            && SharedOf(u) == Kept(SharedOf(v).(journal := Present(Owner(a, p, None, Phase.Pending))), p, c, f.core)
            && u.dead == v.dead && u.tasks == v.tasks && OwnLaneOnly(w, p, u)
  {
    hide Do, Act, BeginCommit, EnvOf;
    var j := Present(Owner(a, p, None, Phase.Pending));
    var r := Record(v, j).(issuerOf := v.issuerOf[a := p]);
    SameEnv(w, p, v, i);
    SameEnv(v, p, r, i);
    BeginMoves(v.procs[p].core, EnvOf(w, w.procs[p], i), 0, a);
    ActIs(r, p, DoBeginCommit(a), i, Free);
  }

  // -------------------------------------------------------------------- bind

  function BindChain(w: World, p: ProcessId, a: AttemptId, i: Input): World {
    BindAnnounceStep(TakeChain(BindStartStep(w, p, a, i), p), p, i)
  }

  function TakeChain(w: World, p: ProcessId): World {
    BindSwapStep(BindAcquireStep(BindObserveStep(BindReadStep(w, p), p), p), p)
  }

  lemma BindMoves(c: Core, env: Env, a: AttemptId, self: ProcessId)
    ensures Do(c, env, DoBindAdopt(a)) == BindAdopt(c, env, a).0
    ensures Do(c, env, DoBindPublish(a, self)) == BindPublish(c, env, a, self).0
  {
    hide BindAdopt, BindPublish;
  }

  /** The journal after the compare-and-swap of a path taken on this very journal. */
  function Swapped(j: Journal, path: BindPath, p: ProcessId): Journal
    requires j.Present?
  {
    match path
    case BindFresh(o) => Present(j.owner.(phase := Phase.Attached, extension := Some(p)))
    case BindOver(o) => Present(j.owner.(extension := Some(p)))
    case _ => j
  }

  /** Nobody moved the journal since it was read, so the swap succeeds once the lease is in hand. */
  lemma LeaseAndSwap(w: World, p: ProcessId, a: AttemptId, path: BindPath)
    requires At(w, p, Extension) && w.procs[p].pc == BindVerified(a, path)
    requires w.journal.Valid() && a != NO_ATTEMPT && p != NO_PROCESS
    requires w.journal.Present? && w.journal.owner.attempt == a
    requires (path == BindFresh(w.journal.owner) && w.journal.owner.phase.Pending?)
             || (path == BindOver(w.journal.owner) && w.journal.owner.phase.Attached?)
             || (path.BindRelock? && w.journal.AttachedTo(a, p))
    ensures var v := BindSwapStep(BindAcquireStep(w, p), p);
            var pr, free := w.procs[p], w.extension.holder.None?;
            && v.procs == w.procs[p := if free then pr.(core := pr.core.(extensionLease := Some(a)), pc := BindOwned(a))
                                       else pr.(pc := Free)]
            && SharedOf(v) == (if free then SharedOf(w).(journal := Swapped(w.journal, path, p),
                                                         extension := Lease(Some(p), Some(LeaseRecord(a, p))))
                               else SharedOf(w))
            && v.dead == w.dead && v.tasks == w.tasks && v.lanes == w.lanes
  {
  }

  lemma ObserveOnly(w: World, p: ProcessId, a: AttemptId, path: BindPath)
    requires At(w, p, Extension) && w.procs[p].pc == BindRead(a, path)
    requires path.BindFresh? || (path.BindOver? && path.owner.extension.Some?)
    ensures var v := BindObserveStep(w, p);
            var ok := if path.BindFresh? then Observe(w.issuer, LeaseRecord(a, path.owner.issuer)).HeldExact?
                      else w.extension.holder.None?;
            v == Goto(w, p, if ok then BindVerified(a, path) else Free)
  {
  }

  /** From the journal read to the lease in hand. */
  lemma TakeAlone(w: World, p: ProcessId, a: AttemptId)
    requires At(w, p, Extension) && w.procs[p].pc == BindSynced(a)
    requires w.journal.Valid() && a != NO_ATTEMPT && p != NO_PROCESS
    ensures var t, v := TakeRun(w.procs[p].core, SharedOf(w), a, p), TakeChain(w, p);
            && v.procs == w.procs[p := w.procs[p].(core := t.core, pc := if t.result.Ok? then BindOwned(a) else Free)]
            && SharedOf(v) == t.shared && v.dead == w.dead && v.tasks == w.tasks && v.lanes == w.lanes
  {
    hide BindSwapStep, BindAcquireStep, BindObserveStep;
    var path := BindDecide(w.procs[p].core, w.journal, a, p);
    var w1 := BindReadStep(w, p);
    if path.BindRefused? || path.BindHeld? {
      StaysPut(w1, p);
    } else if path.BindRelock? {
      StaysPut(w1, p);
      LeaseAndSwap(w1, p, a, path);
    } else {
      ObserveOnly(w1, p, a, path);
      var w2 := BindObserveStep(w1, p);
      if w2.procs[p].pc.Free? {
        StaysPut(w2, p);
      } else {
        LeaseAndSwap(w2, p, a, path);
      }
    }
  }

  /** The steps of a bind do nothing where they are not due. */
  lemma StaysPut(w: World, p: ProcessId)
    requires At(w, p, Extension)
    ensures !w.procs[p].pc.BindRead? ==> BindObserveStep(w, p) == w
    ensures !w.procs[p].pc.BindVerified? ==> BindAcquireStep(w, p) == w
    ensures !w.procs[p].pc.BindLeased? ==> BindSwapStep(w, p) == w
  {
  }

  /** bind_platform_vpn_start, uninterrupted. */
  lemma BindUninterrupted(w: World, p: ProcessId, a: AttemptId, i: Input)
    requires MutexFree(w, p, Extension) && p != NO_PROCESS && a != NO_ATTEMPT && w.journal.Valid()
    ensures RanAlone(w, p, BindRun(w.procs[p].core, SharedOf(w), EnvOf(w, w.procs[p], i), a, p),
                     BindChain(w, p, a, i))
  {
    hide Do, Act, BindAdopt, BindPublish, OwnLaneOnly, EnvOf, TakeRun, TakeChain;
    var pr := w.procs[p];
    var env := EnvOf(w, pr, i);
    var pass := BindAdopt(pr.core, env, a).1;
    BindMoves(pr.core, env, a, p);
    ActIs(w, p, DoBindAdopt(a), i, if pass then BindSynced(a) else Free);
    var w1 := BindStartStep(w, p, a, i);
    if pass {
      TakeAlone(w1, p, a);
      var w2 := TakeChain(w1, p);
      SameLanes(w, p, w1, w2);
      SameEnv(w, p, w2, i);
      if w2.procs[p].pc.BindOwned? {
        BindMoves(w2.procs[p].core, env, a, p);
        ActIs(w2, p, DoBindPublish(a, p), i, Free);
        OwnLaneTwice(w, p, w2, BindAnnounceStep(w2, p, i));
      }
    } else {
      TakeNothing(w1, p);
    }
  }

  lemma TakeNothing(w: World, p: ProcessId)
    requires At(w, p, Extension) && w.procs[p].pc.Free?
    ensures TakeChain(w, p) == w
  {
  }

  lemma OwnLaneTwice(w: World, p: ProcessId, v: World, u: World)
    requires p in w.procs && OwnLaneOnly(w, p, v) && p in v.procs && OwnLaneOnly(v, p, u)
    requires v.procs[p].region == w.procs[p].region && v.procs[p].role == w.procs[p].role
    ensures OwnLaneOnly(w, p, u)
  {
  }

  // ------------------------------------------------------------------- claim

  function ClaimChain(w: World, p: ProcessId, epoch: nat, i: Input): World {
    RaceChain(ClaimPublishStep(ClaimReadStep(ClaimStartStep(w, p, epoch, i), p), p, i), p)
  }

  function RaceChain(w: World, p: ProcessId): World {
    ClaimRereadStep(ClaimFenceStep(w, p), p)
  }

  lemma ClaimMoves(c: Core, env: Env, epoch: nat, a: AttemptId)
    ensures Do(c, env, DoClaimCheck(epoch)) == ClaimCheck(c, env, epoch).0
    ensures Do(c, env, DoClaimMark) == ClaimMark(c, env)
    ensures Do(c, env, DoClaimCommit(epoch, a)) == Quiet(ClaimCommit(c, epoch, a))
  {
    hide ClaimCheck, ClaimMark, ClaimCommit;
  }

  /** Leaving the fence behind touches neither the leases nor a lane. */
  lemma CommitAlone(w: World, p: ProcessId, epoch: nat, a: AttemptId)
    requires p in w.procs
    ensures var pr := w.procs[p];
            Act(w, p, DoClaimCommit(epoch, a), NO_INPUT, Free)
            == w.(procs := w.procs[p := pr.(core := ClaimCommit(pr.core, epoch, a), pc := Free)])
  {
    hide Do;
    ClaimMoves(w.procs[p].core, EnvOf(w, w.procs[p], NO_INPUT), epoch, a);
  }

  /** The fence and, if it lost, the re-read. */
  lemma RaceAlone(w: World, p: ProcessId, epoch: nat, o: Owner)
    requires At(w, p, Ui) && w.procs[p].pc == ClaimFencing(epoch, o)
    ensures var (c, j, _) := ClaimRace(w.procs[p].core, w.journal, epoch, o);
            var v := RaceChain(w, p);
            && v.procs == w.procs[p := w.procs[p].(core := c, pc := Free)]
            && SharedOf(v) == SharedOf(w).(journal := j) && v.dead == w.dead && v.tasks == w.tasks && v.lanes == w.lanes
  {
    hide Act, ClaimCommit, FencePendingStop;
    var (j, _) := FencePendingStop(w.journal, o.attempt, o.issuer);
    FenceKeepsJournal(w.journal, o.attempt, o.issuer);
    CommitAlone(w, p, epoch, o.attempt);
    CommitAlone(Record(w, j), p, epoch, o.attempt);
    CommitAlone(Goto(w, p, ClaimLost(epoch, o.attempt)), p, epoch, o.attempt);
  }

  lemma FenceKeepsJournal(j: Journal, a: AttemptId, issuer: ProcessId)
    ensures !FencePendingStop(j, a, issuer).1.Fenced? ==> FencePendingStop(j, a, issuer).0 == j
  {
  }

  /** claim_current_platform_vpn_stop, uninterrupted, its mark published. */
  lemma ClaimUninterrupted(w: World, p: ProcessId, epoch: nat, i: Input)
    requires MutexFree(w, p, Ui) && i.landed == 0
    ensures RanAlone(w, p, ClaimRun(w.procs[p].core, SharedOf(w), EnvOf(w, w.procs[p], i), w.journal, epoch, p),
                     ClaimChain(w, p, epoch, i))
  {
    hide Do, Act, ClaimCheck, ClaimMark, ClaimCommit, ClaimRace, OwnLaneOnly, EnvOf, RaceChain;
    var pr := w.procs[p];
    var env := EnvOf(w, pr, i);
    var (e, pass) := ClaimCheck(pr.core, env, epoch);
    ClaimMoves(pr.core, env, epoch, 0);
    ActIs(w, p, DoClaimCheck(epoch), i, if pass then ClaimSynced(epoch) else Free);
    var w1 := ClaimStartStep(w, p, epoch, i);
    var w2 := ClaimReadStep(w1, p);
    if pass {
      var decision := ClaimDecide(e.core, w1.journal);
      match decision
      case ClaimRetained(a) =>
        CommitAlone(w1, p, epoch, a);
        RaceNothing(w2, p);
        SameLanes(w, p, w1, w2);
      case ClaimCold(o) =>
        RaceAlone(w2, p, epoch, o);
        SameLanes(w, p, w1, RaceChain(w2, p));
      case ClaimOwned(o) =>
        SameLanes(w, p, w1, w2);
        SameEnv(w, p, w2, i);
        ClaimMoves(e.core, env, epoch, 0);
        ActIs(w2, p, DoClaimMark, i, ClaimFencing(epoch, o));
        var w3 := ClaimPublishStep(w2, p, i);
        OwnLaneTwice(w, p, w2, w3);
        RaceAlone(w3, p, epoch, o);
        SameLanes(w, p, w3, RaceChain(w3, p));
        MarkKeepsLeases(e.core, env);
      case _ =>
        RaceNothing(w2, p);
        SameLanes(w, p, w1, w2);
    } else {
      RaceNothing(w1, p);
    }
  }

  lemma RaceNothing(w: World, p: ProcessId)
    requires At(w, p, Ui) && w.procs[p].pc.Free?
    ensures RaceChain(w, p) == w
  {
  }

  lemma MarkKeepsLeases(c: Core, env: Env)
    ensures ClaimMark(c, env).core.issuerLease == c.issuerLease && ClaimMark(c, env).core.extensionLease == c.extensionLease
  {
  }

  // ------------------------------------------- cleanup acknowledgement, failing

  function AckChain(w: World, p: ProcessId, a: AttemptId, i: Input): World {
    AckDeleteStep(AckReadStep(AckStartStep(w, p, a, i), p), p, i)
  }

  lemma AckMoves(c: Core, env: Env, a: AttemptId)
    ensures Do(c, env, DoCleanupCheck(a)) == CleanupCheck(c, env, a).0
    ensures Do(c, env, DoCleanupCommit) == CleanupCommit(c, env)
  {
    hide CleanupCheck, CleanupCommit;
  }

  /** complete_platform_vpn_cleanup, uninterrupted. */
  lemma AckUninterrupted(w: World, p: ProcessId, a: AttemptId, i: Input)
    requires MutexFree(w, p, Extension) && p != NO_PROCESS
    ensures RanAlone(w, p, AckRun(w.procs[p].core, SharedOf(w), EnvOf(w, w.procs[p], i), a, p),
                     AckChain(w, p, a, i))
  {
    hide Do, Act, CleanupCheck, CleanupCommit, OwnLaneOnly, EnvOf;
    var pr := w.procs[p];
    var env := EnvOf(w, pr, i);
    var (e, gate) := CleanupCheck(pr.core, env, a);
    AckMoves(pr.core, env, a);
    ActIs(w, p, DoCleanupCheck(a), i, if gate.Proceed? then AckReady(a) else Free);
    var w1 := AckStartStep(w, p, a, i);
    var w2 := AckReadStep(w1, p);
    SameLanes(w, p, w1, w2);
    if w2.procs[p].pc.AckMatched? {
      ProceedNames(pr.core, env, a);
      var w3 := Record(w2, Missing);
      SameLanes(w, p, w1, w3);
      SameEnv(w, p, w3, i);
      AckMoves(e.core, env, a);
      ActIs(w3, p, DoCleanupCommit, i, Free);
      OwnLaneTwice(w, p, w3, AckDeleteStep(w2, p, i));
    }
  }

  lemma ProceedNames(c: Core, env: Env, a: AttemptId)
    ensures CleanupCheck(c, env, a).1.Proceed? ==> a != NO_ATTEMPT
  {
    hide Sync;
  }

  function FailChain(w: World, p: ProcessId, a: AttemptId, req: bool, i: Input): World {
    FailFinishStep(FailStartStep(w, p, a, req, i), p, i)
  }

  lemma FailMoves(c: Core, env: Env, a: AttemptId, req: bool)
    ensures Do(c, env, DoFailCheck(a, req)) == FailCheck(c, env, a, req).0
    ensures Do(c, env, DoFailCommit(req)) == FailCommit(c, env, req)
  {
    hide FailCheck, FailCommit;
  }

  /** fail_platform_vpn_start_if, uninterrupted; only the UI process waives the cleanup. */
  lemma FailUninterrupted(w: World, p: ProcessId, a: AttemptId, req: bool, i: Input)
    requires p in w.procs && w.procs[p].pc.Free? && (req ==> w.procs[p].role.Ui?)
    ensures RanAlone(w, p, FailRun(w.procs[p].core, SharedOf(w), EnvOf(w, w.procs[p], i), a, req, p),
                     FailChain(w, p, a, req, i))
  {
    hide Do, Act, FailCheck, FailCommit, OwnLaneOnly, EnvOf, DeletePendingExact;
    var pr := w.procs[p];
    var env := EnvOf(w, pr, i);
    var (e, pass) := FailCheck(pr.core, env, a, req);
    FailMoves(pr.core, env, a, req);
    ActIs(w, p, DoFailCheck(a, req), i, if pass then FailReady(a, req) else Free);
    var w1 := FailStartStep(w, p, a, req, i);
    if pass {
      var w2 := if req then Record(w1, DeletePendingExact(w1.journal, a).0) else w1;
      SameLanes(w, p, w1, w2);
      SameEnv(w, p, w2, i);
      FailMoves(e.core, env, a, req);
      ActIs(w2, p, DoFailCommit(req), i, Free);
      OwnLaneTwice(w, p, w2, Act(w2, p, DoFailCommit(req), i, Free));
      SameLanes(w, p, w1, Goto(w1, p, Free));
    }
  }

  // --------------------------------------------- the methods are those actions

  // The chains are histories of the relation: each link is one action.

  lemma BeginLinks(w: World, p: ProcessId, epoch: nat, a: AttemptId, i: Input)
    ensures Step(w, BeginStart(p, epoch, i)) == BeginStartStep(w, p, epoch, i)
    ensures Step(w, BeginPick(p, a)) == BeginPickStep(w, p, a)
    ensures Step(w, BeginLease(p)) == BeginLeaseStep(w, p)
    ensures Step(w, BeginCreate(p, i)) == BeginCreateStep(w, p, i)
  {
    hide BeginStartStep, BeginPickStep, BeginLeaseStep, BeginCreateStep;
  }

  lemma BeginIsActions(w: World, p: ProcessId, epoch: nat, a: AttemptId, i: Input)
    ensures BeginChain(w, p, epoch, a, i) ==
            Step(Step(Step(Step(w, BeginStart(p, epoch, i)), BeginPick(p, a)), BeginLease(p)), BeginCreate(p, i))
  {
    hide Step, BeginStartStep, BeginPickStep, BeginLeaseStep, BeginCreateStep;
    BeginLinks(w, p, epoch, a, i);
    var w1 := Step(w, BeginStart(p, epoch, i));
    BeginLinks(w1, p, epoch, a, i);
    var w2 := Step(w1, BeginPick(p, a));
    BeginLinks(w2, p, epoch, a, i);
    var w3 := Step(w2, BeginLease(p));
    BeginLinks(w3, p, epoch, a, i);
  }

  lemma BindLinks(w: World, p: ProcessId, a: AttemptId, i: Input)
    ensures Step(w, BindStart(p, a, i)) == BindStartStep(w, p, a, i)
    ensures Step(w, BindReadJournal(p)) == BindReadStep(w, p)
    ensures Step(w, BindObserve(p)) == BindObserveStep(w, p)
  {
    hide BindStartStep, BindReadStep, BindObserveStep;
  }

  lemma BindLinksOnward(w: World, p: ProcessId, a: AttemptId, i: Input)
    ensures Step(w, BindAcquire(p)) == BindAcquireStep(w, p)
    ensures Step(w, BindSwap(p)) == BindSwapStep(w, p)
    ensures Step(w, BindAnnounce(p, i)) == BindAnnounceStep(w, p, i)
  {
    hide BindAcquireStep, BindSwapStep, BindAnnounceStep;
  }

  lemma BindIsActions(w: World, p: ProcessId, a: AttemptId, i: Input)
    ensures BindChain(w, p, a, i) ==
            Step(Step(Step(Step(Step(Step(w, BindStart(p, a, i)), BindReadJournal(p)), BindObserve(p)), BindAcquire(p)),
                      BindSwap(p)), BindAnnounce(p, i))
  {
    hide Step, BindStartStep, BindReadStep, BindObserveStep, BindAcquireStep, BindSwapStep, BindAnnounceStep;
    BindLinks(w, p, a, i);
    var w1 := Step(w, BindStart(p, a, i));
    BindLinks(w1, p, a, i);
    var w2 := Step(w1, BindReadJournal(p));
    BindLinks(w2, p, a, i);
    var w3 := Step(w2, BindObserve(p));
    BindLinksOnward(w3, p, a, i);
    var w4 := Step(w3, BindAcquire(p));
    BindLinksOnward(w4, p, a, i);
    var w5 := Step(w4, BindSwap(p));
    BindLinksOnward(w5, p, a, i);
  }

  lemma ClaimLinks(w: World, p: ProcessId, epoch: nat, i: Input)
    ensures Step(w, ClaimStart(p, epoch, i)) == ClaimStartStep(w, p, epoch, i)
    ensures Step(w, ClaimReadJournal(p)) == ClaimReadStep(w, p)
  {
    hide ClaimStartStep, ClaimReadStep;
  }

  lemma ClaimLinksOnward(w: World, p: ProcessId, epoch: nat, i: Input)
    ensures Step(w, ClaimPublish(p, i)) == ClaimPublishStep(w, p, i)
    ensures Step(w, ClaimFence(p)) == ClaimFenceStep(w, p)
    ensures Step(w, ClaimReread(p)) == ClaimRereadStep(w, p)
  {
    hide ClaimPublishStep, ClaimFenceStep, ClaimRereadStep;
  }

  lemma ClaimIsActions(w: World, p: ProcessId, epoch: nat, i: Input)
    ensures ClaimChain(w, p, epoch, i) ==
            Step(Step(Step(Step(Step(w, ClaimStart(p, epoch, i)), ClaimReadJournal(p)), ClaimPublish(p, i)), ClaimFence(p)),
                 ClaimReread(p))
  {
    hide Step, ClaimStartStep, ClaimReadStep, ClaimPublishStep, ClaimFenceStep, ClaimRereadStep;
    ClaimLinks(w, p, epoch, i);
    var w1 := Step(w, ClaimStart(p, epoch, i));
    ClaimLinks(w1, p, epoch, i);
    var w2 := Step(w1, ClaimReadJournal(p));
    ClaimLinksOnward(w2, p, epoch, i);
    var w3 := Step(w2, ClaimPublish(p, i));
    ClaimLinksOnward(w3, p, epoch, i);
    var w4 := Step(w3, ClaimFence(p));
    ClaimLinksOnward(w4, p, epoch, i);
  }

  lemma AckLinks(w: World, p: ProcessId, a: AttemptId, i: Input)
    ensures Step(w, AckStart(p, a, i)) == AckStartStep(w, p, a, i)
    ensures Step(w, AckRead(p)) == AckReadStep(w, p)
    ensures Step(w, AckDelete(p, i)) == AckDeleteStep(w, p, i)
  {
    hide AckStartStep, AckReadStep, AckDeleteStep;
  }

  lemma AckIsActions(w: World, p: ProcessId, a: AttemptId, i: Input)
    ensures AckChain(w, p, a, i) == Step(Step(Step(w, AckStart(p, a, i)), AckRead(p)), AckDelete(p, i))
  {
    hide Step, AckStartStep, AckReadStep, AckDeleteStep;
    AckLinks(w, p, a, i);
    var w1 := Step(w, AckStart(p, a, i));
    AckLinks(w1, p, a, i);
    var w2 := Step(w1, AckRead(p));
    AckLinks(w2, p, a, i);
  }

  lemma FailLinks(w: World, p: ProcessId, a: AttemptId, req: bool, i: Input)
    ensures Step(w, FailStart(p, a, req, i)) == FailStartStep(w, p, a, req, i)
    ensures Step(w, FailFinish(p, i)) == FailFinishStep(w, p, i)
  {
    hide FailStartStep, FailFinishStep;
  }

  lemma FailIsActions(w: World, p: ProcessId, a: AttemptId, req: bool, i: Input)
    ensures FailChain(w, p, a, req, i) == Step(Step(w, FailStart(p, a, req, i)), FailFinish(p, i))
  {
    hide Step, FailStartStep, FailFinishStep;
    FailLinks(w, p, a, req, i);
    var w1 := Step(w, FailStart(p, a, req, i));
    FailLinks(w1, p, a, req, i);
  }

  /** The object is process h.self of the world, and its store is the world's. */
  ghost predicate Shows(h: CoreHandle, w: World)
    reads h, h.store
  {
    h.self in w.procs && h.View() == w.procs[h.self].core && h.store.View() == SharedOf(w)
  }

  /** A method that works on its own core and lane is one move of the world. */
  twostate lemma BecameIsMove(h: CoreHandle, w: World, m: Move, i: Input)
    requires old(Shows(h, w)) && h.Became(Do(w.procs[h.self].core, EnvOf(w, w.procs[h.self], i), m))
    ensures Shows(h, Act(w, h.self, m, i, Free))
  {
    hide Do, EnvOf;
    ActIs(w, h.self, m, i, Free);
  }

  method BeginAsActions(h: CoreHandle, env: Env, epoch: nat, a: AttemptId, ghost w: World, ghost i: Input) returns (ok: bool)
    requires Shows(h, w) && MutexFree(w, h.self, Ui) && env == EnvOf(w, w.procs[h.self], i)
    requires h.self != NO_PROCESS && a != NO_ATTEMPT && a !in w.issuerOf
    modifies h, h.store
    ensures Shows(h, BeginChain(w, h.self, epoch, a, i))
  {
    hide BeginRun, BeginChain, EnvOf;
    BeginUninterrupted(w, h.self, epoch, a, i);
    ok := h.BeginPlatformStart(env, epoch, a);
  }

  method BindAsActions(h: CoreHandle, env: Env, a: AttemptId, ghost w: World, ghost i: Input) returns (r: Result<(), BindError>)
    requires Shows(h, w) && MutexFree(w, h.self, Extension) && env == EnvOf(w, w.procs[h.self], i)
    requires h.self != NO_PROCESS && a != NO_ATTEMPT && w.journal.Valid()
    modifies h, h.store
    ensures Shows(h, BindChain(w, h.self, a, i))
  {
    hide BindRun, BindChain, EnvOf;
    BindUninterrupted(w, h.self, a, i);
    r := h.BindPlatformStart(env, a);
  }

  method ClaimAsActions(h: CoreHandle, env: Env, epoch: nat, ghost w: World, ghost i: Input) returns (claim: StopClaim)
    requires Shows(h, w) && MutexFree(w, h.self, Ui) && env == EnvOf(w, w.procs[h.self], i) && i.landed == 0
    modifies h, h.store
    ensures Shows(h, ClaimChain(w, h.self, epoch, i))
  {
    hide ClaimRun, ClaimChain, EnvOf;
    ClaimUninterrupted(w, h.self, epoch, i);
    claim := h.ClaimPlatformStop(env, epoch, h.store.journal);
  }

  method AckAsActions(h: CoreHandle, env: Env, a: AttemptId, ghost w: World, ghost i: Input) returns (r: Result<bool, ()>)
    requires Shows(h, w) && MutexFree(w, h.self, Extension) && env == EnvOf(w, w.procs[h.self], i) && h.self != NO_PROCESS
    modifies h, h.store
    ensures Shows(h, AckChain(w, h.self, a, i))
  {
    hide AckRun, AckChain, EnvOf;
    AckUninterrupted(w, h.self, a, i);
    r := h.CompleteCleanup(env, a);
  }

  method FailAsActions(h: CoreHandle, env: Env, a: AttemptId, req: bool, ghost w: World, ghost i: Input) returns (ok: bool)
    requires Shows(h, w) && env == EnvOf(w, w.procs[h.self], i)
    requires w.procs[h.self].pc.Free? && (req ==> w.procs[h.self].role.Ui?)
    modifies h, h.store
    ensures Shows(h, FailChain(w, h.self, a, req, i))
  {
    hide FailRun, FailChain, EnvOf;
    FailUninterrupted(w, h.self, a, req, i);
    ok := h.FailStartIf(env, a, req);
  }
}
