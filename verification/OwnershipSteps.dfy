/** Every action keeps the invariant; hence it holds in every reachable world. */
module OwnershipSteps {
  import opened Wrappers
  import opened OwnerJournal
  import opened PlatformState
  import opened SessionMoves
  import opened MoveFacts
  import opened OwnershipWorld
  import opened OwnershipInvariant

  // ------------------------------------------------------ starting and dying

  lemma InitInv()
    ensures Inv(INIT, None)
  {
  }

  lemma SpawnInv(w: World, p: ProcessId, role: Role)
    requires Inv(w, None)
    ensures Inv(SpawnStep(w, p, role), None)
  {
    hide PcOk, LaneOk, OwnerOk, TaskOk, CleanupSound;
    var w' := SpawnStep(w, p, role);
    if w' != w {
      SpawnSelf(w, p, role);
      forall q | q in w'.procs ensures ProcOk(w', q, None) {
        if q != p {
          assert ProcOk(w, q, None);
          SpawnOthers(w, p, role, q);
        }
      }
      SpawnLanes(w, p, role);
      OwnersFrame(w, w');
      TasksFrame(w, w');
    }
  }

  lemma SpawnSelf(w: World, p: ProcessId, role: Role)
    requires Inv(w, None) && SpawnStep(w, p, role) != w
    ensures ProcOk(SpawnStep(w, p, role), p, None)
  {  }

  lemma SpawnOthers(w: World, p: ProcessId, role: Role, q: ProcessId)
    requires Inv(w, None) && SpawnStep(w, p, role) != w && q in w.procs
    ensures ProcOk(SpawnStep(w, p, role), q, None)
  {
    hide PcOk, CleanupSound;
    var w' := SpawnStep(w, p, role);
    assert ProcOk(w, q, None);
    assert PcOk(w', q, w.procs[q]) by {
      SpawnPc(w, p, role, q);
    }
  }

  lemma SpawnPc(w: World, p: ProcessId, role: Role, q: ProcessId)
    requires Inv(w, None) && SpawnStep(w, p, role) != w && q in w.procs
    ensures PcOk(SpawnStep(w, p, role), q, w.procs[q])
  {
    assert ProcOk(w, q, None);
  }

  lemma SpawnLanes(w: World, p: ProcessId, role: Role)
    requires Inv(w, None) && SpawnStep(w, p, role) != w
    ensures LanesOk(SpawnStep(w, p, role))
  {
    hide CleanupSound;
    var w' := SpawnStep(w, p, role);
    forall r | r in w'.lanes ensures LaneOk(w', r) {
      if r in w.lanes {
        assert LaneOk(w, r);
      }
    }
  }

  lemma CrashInv(w: World, p: ProcessId)
    requires Inv(w, None)
    ensures Inv(CrashStep(w, p), None)
  {
    hide ProcOk, LaneOk, OwnerOk, TaskOk;
    var w' := CrashStep(w, p);
    if w' != w {
      OthersFrame(w, w', p);
      LanesFrame(w, w');
      OwnersFrame(w, w');
      TasksFrame(w, w');
    }
  }

  lemma AttachSelf(w: World, p: ProcessId, region: ProcessId)
    requires Inv(w, None) && MutexFree(w, p, Extension) && region in w.lanes
    ensures ProcOk(AttachStep(w, p, region), p, None)
  {
    var w' := AttachStep(w, p, region);
    assert ProcOk(w, p, None) && LaneOk(w, region);
    assert OnlyTouches(w, w', p);
    if Gone(w, w.procs[p].core.session.attempt) {
      GoneFrame(w, w', p, w.procs[p].core.session.attempt);
    }
  }

  lemma NoOwnLane(w: World, p: ProcessId)
    requires Inv(w, None) && At(w, p, Extension)
    ensures p !in w.lanes
  {
    assert ProcOk(w, p, None);
  }

  lemma AttachInv(w: World, p: ProcessId, region: ProcessId)
    requires Inv(w, None)
    ensures Inv(AttachStep(w, p, region), None)
  {
    hide ProcOk, LaneOk, OwnerOk, TaskOk;
    var w' := AttachStep(w, p, region);
    if w' != w {
      NoOwnLane(w, p);
      AttachSelf(w, p, region);
      OthersFrame(w, w', p);
      LanesFrame(w, w');
      OwnersFrame(w, w');
      TasksFrame(w, w');
    }
  }

  // ------------------------------- steps that are one plain move and a new pc

  lemma LocalInv(w: World, p: ProcessId, m: Move, i: Input)
    requires Inv(w, None)
    ensures Inv(LocalStep(w, p, m, i), None)
  {
    hide Do, Inv;
    if p in w.procs && w.procs[p].pc.Free? && LocalMove(w.procs[p].role, m) {
      ActInv(w, p, m, i, Free, None);
    }
  }

  lemma SyncFence(c: Core, env: Env)
    ensures Sync(c, env).core.fence == c.fence
  {
  }

  lemma BeginStartInv(w: World, p: ProcessId, epoch: nat, i: Input)
    requires Inv(w, None)
    ensures Inv(BeginStartStep(w, p, epoch, i), None)
  {
    hide Inv, Apply, Sync;
    if MutexFree(w, p, Ui) {
      var pr := w.procs[p];
      var ok := BeginCheck(pr.core, EnvOf(w, pr, i), epoch).1;
      SyncFence(pr.core, EnvOf(w, pr, i));
      assert ok ==> BeginGuard(BeginCheck(pr.core, EnvOf(w, pr, i), epoch).0.core);
      ActInv(w, p, DoBeginCheck(epoch), i, if ok then BeginChecked else Free, None);
    }
  }

  lemma BindStartInv(w: World, p: ProcessId, a: AttemptId, i: Input)
    requires Inv(w, None)
    ensures Inv(BindStartStep(w, p, a, i), None)
  {
    hide Inv, Apply;
    if MutexFree(w, p, Extension) {
      var pr := w.procs[p];
      var ok := BindAdopt(pr.core, EnvOf(w, pr, i), a).1;
      assert ok ==> a != NO_ATTEMPT && BindAdopt(pr.core, EnvOf(w, pr, i), a).0.core.session.attempt == a;
      assert ok ==> Do(pr.core, EnvOf(w, pr, i), DoBindAdopt(a)).core.session.attempt == a;
      hide Do, BindAdopt;
      ActInv(w, p, DoBindAdopt(a), i, if ok then BindSynced(a) else Free, None);
    }
  }

  lemma BindAnnounceInv(w: World, p: ProcessId, i: Input)
    requires Inv(w, None)
    ensures Inv(BindAnnounceStep(w, p, i), None)
  {
    hide Inv, Do;
    if At(w, p, Extension) && w.procs[p].pc.BindOwned? {
      ActInv(w, p, DoBindPublish(w.procs[p].pc.attempt, p), i, Free, None);
    }
  }

  lemma ClaimStartInv(w: World, p: ProcessId, epoch: nat, i: Input)
    requires Inv(w, None)
    ensures Inv(ClaimStartStep(w, p, epoch, i), None)
  {
    hide Inv, Apply, Sync;
    if MutexFree(w, p, Ui) {
      var pr := w.procs[p];
      var ok := ClaimCheck(pr.core, EnvOf(w, pr, i), epoch).1;
      SyncFence(pr.core, EnvOf(w, pr, i));
      ActInv(w, p, DoClaimCheck(epoch), i, if ok then ClaimSynced(epoch) else Free, None);
    }
  }

  lemma AckStartInv(w: World, p: ProcessId, a: AttemptId, i: Input)
    requires Inv(w, None)
    ensures Inv(AckStartStep(w, p, a, i), None)
  {
    hide Inv, Apply, Sync;
    if MutexFree(w, p, Extension) {
      var pr := w.procs[p];
      var gate := CleanupCheck(pr.core, EnvOf(w, pr, i), a).1;
      ActInv(w, p, DoCleanupCheck(a), i, if gate.Proceed? then AckReady(a) else Free, None);
    }
  }

  lemma FailStartInv(w: World, p: ProcessId, a: AttemptId, req: bool, i: Input)
    requires Inv(w, None)
    ensures Inv(FailStartStep(w, p, a, req, i), None)
  {
    hide Inv, Apply, Sync;
    if p in w.procs && w.procs[p].pc.Free? && !(req && !w.procs[p].role.Ui?) {
      var pr := w.procs[p];
      var ok := FailCheck(pr.core, EnvOf(w, pr, i), a, req).1;
      ActInv(w, p, DoFailCheck(a, req), i, if ok then FailReady(a, req) else Free, None);
    }
  }

  lemma LoseOwnerInv(w: World, p: ProcessId, i: Input)
    requires Inv(w, None)
    ensures Inv(LoseOwnerStep(w, p, i), None)
  {
    hide Do;
    if MutexFree(w, p, Ui) && w.extension.holder.None? {
      assert JournalOk(w);
      hide Inv;
      ActInv(w, p, DoOwnerLost(w.journal), i, Free, None);
    }
  }

  lemma ClaimAutoInv(w: World, p: ProcessId, hasProfile: bool, active: bool, i: Input)
    requires Inv(w, None)
    ensures Inv(ClaimAutoStep(w, p, hasProfile, active, i), None)
  {
    hide Inv, Do;
    if MutexFree(w, p, Ui) {
      ActInv(w, p, DoClaimRecovery(hasProfile, Orphan(w, active)), i, Free, None);
    }
  }
}
