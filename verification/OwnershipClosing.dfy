/** Claiming, acknowledging, failing, recovering and creating keep the invariant; then so does every action. */
module OwnershipClosing {
  import opened Wrappers
  import opened OwnerJournal
  import opened PlatformState
  import opened SessionMoves
  import opened MoveFacts
  import opened OwnershipWorld
  import opened OwnershipInvariant
  import opened OwnershipSteps
  import opened OwnershipRaces

  lemma JournalSound(w: World)
    requires Inv(w, None)
    ensures JournalOk(w)
  {
  }

  // -------------------------------------------------------------- claim stop

  lemma ClaimCommitInv(w: World, p: ProcessId, epoch: nat, a: AttemptId)
    requires Inv(w, None) && At(w, p, Ui) && !w.procs[p].pc.BindLeased?
    requires ClaimGuard(w.procs[p].core, epoch, a)
    ensures Inv(Act(w, p, DoClaimCommit(epoch, a), NO_INPUT, Free), None)
  {
    hide Inv, Do;
    ActInv(w, p, DoClaimCommit(epoch, a), NO_INPUT, Free, None);
  }

  lemma ClaimReadInv(w: World, p: ProcessId)
    requires Inv(w, None)
    ensures Inv(ClaimReadStep(w, p), None)
  {
    if At(w, p, Ui) && w.procs[p].pc.ClaimSynced? {
      PcHolds(w, p);
      hide Inv, Act;
      var epoch := w.procs[p].pc.epoch;
      match ClaimDecide(w.procs[p].core, w.journal)
      case ClaimRetained(a) => ClaimCommitInv(w, p, epoch, a);
      case ClaimCold(o) => GotoInv(w, p, ClaimFencing(epoch, o));
      case ClaimOwned(o) => GotoInv(w, p, ClaimRead(epoch, o));
      case _ => GotoInv(w, p, Free);
    }
  }

  lemma ClaimMarkFence(c: Core, env: Env)
    ensures Do(c, env, DoClaimMark).core.fence == c.fence
  {
  }

  lemma ClaimPublishInv(w: World, p: ProcessId, i: Input)
    requires Inv(w, None)
    ensures Inv(ClaimPublishStep(w, p, i), None)
  {
    if At(w, p, Ui) && w.procs[p].pc.ClaimRead? {
      PcHolds(w, p);
      hide Inv, Do;
      var pc := w.procs[p].pc;
      ClaimMarkFence(w.procs[p].core, EnvOf(w, w.procs[p], i));
      ActInv(w, p, DoClaimMark, i, if i.landed == 0 then ClaimFencing(pc.epoch, pc.owner) else Free, None);
    }
  }

  /** Turning Pending into Stopping. */
  lemma FenceInv(w: World, a: AttemptId, issuer: ProcessId)
    requires Inv(w, None) && FencePendingStop(w.journal, a, issuer).1.Fenced?
    ensures Inv(Record(w, FencePendingStop(w.journal, a, issuer).0), None)
  {
    hide LaneOk, TaskOk, CleanupSound;
    var j := FencePendingStop(w.journal, a, issuer).0;
    var w' := Record(w, j);
    forall q | q in w'.procs ensures ProcOk(w', q, None) {
      assert ProcOk(w, q, None);
      hide PcOk, ProcOk, StrayOk, MarkOk;
      ProcFrame(w, w', q, None);
    }
    LanesFrame(w, w');
    forall o | o in w'.owners ensures OwnerOk(w', o) {
      assert OwnerOk(w, o);
    }
    TasksFrame(w, w');
  }

  lemma ClaimFencedInv(w: World, p: ProcessId, epoch: nat, o: Owner)
    requires Inv(w, None) && At(w, p, Ui) && !w.procs[p].pc.BindLeased?
    requires ClaimGuard(w.procs[p].core, epoch, o.attempt)
    requires FencePendingStop(w.journal, o.attempt, o.issuer).1.Fenced?
    ensures Inv(Act(Record(w, FencePendingStop(w.journal, o.attempt, o.issuer).0), p,
                    DoClaimCommit(epoch, o.attempt), NO_INPUT, Free), None)
  {
    hide Inv, Act, FencePendingStop, ClaimGuard;
    FenceInv(w, o.attempt, o.issuer);
    ClaimCommitInv(Record(w, FencePendingStop(w.journal, o.attempt, o.issuer).0), p, epoch, o.attempt);
  }

  lemma ClaimFenceInv(w: World, p: ProcessId)
    requires Inv(w, None)
    ensures Inv(ClaimFenceStep(w, p), None)
  {
    if At(w, p, Ui) && w.procs[p].pc.ClaimFencing? {
      PcHolds(w, p);
      hide Inv, Act, Record, FencePendingStop, ClaimGuard;
      var epoch, o := w.procs[p].pc.epoch, w.procs[p].pc.owner;
      match (o.phase, o.extension)
      case (Pending, None) =>
        var result := FencePendingStop(w.journal, o.attempt, o.issuer).1;
        if result.Fenced? {
          ClaimFencedInv(w, p, epoch, o);
        } else if result.RaceLost? {
          GotoInv(w, p, ClaimLost(epoch, o.attempt));
        } else {
          GotoInv(w, p, Free);
        }
      case (Stopping, None) => ClaimCommitInv(w, p, epoch, o.attempt);
      case (Attached, Some(_)) => ClaimCommitInv(w, p, epoch, o.attempt);
      case _ => GotoInv(w, p, Free);
    }
  }

  lemma ClaimRereadInv(w: World, p: ProcessId)
    requires Inv(w, None)
    ensures Inv(ClaimRereadStep(w, p), None)
  {
    if At(w, p, Ui) && w.procs[p].pc.ClaimLost? {
      PcHolds(w, p);
      hide Inv, Act;
      ClaimCommitInv(w, p, w.procs[p].pc.epoch, w.procs[p].pc.attempt);
      GotoInv(w, p, Free);
    }
  }

  // --------------------------------------------------- acknowledging, failing

  lemma AckReadInv(w: World, p: ProcessId)
    requires Inv(w, None)
    ensures Inv(AckReadStep(w, p), None)
  {
    if At(w, p, Extension) && w.procs[p].pc.AckReady? {
      PcHolds(w, p);
      hide Inv;
      GotoInv(w, p, AckMatched(w.procs[p].pc.attempt));
      GotoInv(w, p, Free);
    }
  }

  lemma AckDeleteInv(w: World, p: ProcessId, i: Input)
    requires Inv(w, None)
    ensures Inv(AckDeleteStep(w, p, i), None)
  {
    if At(w, p, Extension) && w.procs[p].pc.AckMatched? {
      PcHolds(w, p);
      var a := w.procs[p].pc.attempt;
      if DeleteExact(w.journal, a, Some(p)).1 {
        JournalSound(w);
        LivingOwner(w, a, p);
        forall q | q in w.procs && q != p ensures w.procs[q].core.extensionLease.None? {
          NobodyOwns(w, q);
        }
        DeleteInv(w, Some(p));
        hide Inv, Do;
        ActInv(Record(w, Missing), p, DoCleanupCommit, i, Free, Some(p));
      } else {
        hide Inv;
        GotoInv(w, p, Free);
      }
    }
  }

  lemma FailFinishInv(w: World, p: ProcessId, i: Input)
    requires Inv(w, None)
    ensures Inv(FailFinishStep(w, p, i), None)
  {
    if p in w.procs && w.procs[p].pc.FailReady? {
      PcHolds(w, p);
      var pc := w.procs[p].pc;
      if !pc.requireUnattached {
        hide Inv, Do;
        ActInv(w, p, DoFailCommit(false), i, Free, None);
      } else if DeletePendingExact(w.journal, pc.attempt).1 {
        forall q | q in w.procs ensures w.procs[q].core.extensionLease.None? {
          NobodyOwns(w, q);
        }
        DeleteInv(w, None);
        hide Inv, Do;
        ActInv(Record(w, Missing), p, DoFailCommit(true), i, Free, None);
      } else {
        hide Inv;
        GotoInv(w, p, Free);
      }
    }
  }

  // ----------------------------------------------------------------- recovery

  lemma RecoverStartInv(w: World, p: ProcessId, a: AttemptId, i: Input)
    requires Inv(w, None)
    ensures Inv(RecoverStartStep(w, p, a, i), None)
  {
    if MutexFree(w, p, Ui) && a != NO_ATTEMPT {
      hide Inv, Do;
      var next := Act(w, p, DoRecoverySnapshot(a), i, Free);
      ActInv(w, p, DoRecoverySnapshot(a), i, Free, None);
      var t := TaskSnapshot(p, a, RecoverySnapshot(w.procs[p].core, EnvOf(w, w.procs[p], i), a).2);
      TasksInv(next, next.tasks + {t});
    }
  }

  lemma TaskHolds(w: World, t: Task)
    requires Inv(w, None) && t in w.tasks
    ensures TaskOk(w, t)
  {
  }

  lemma RecoverReadInv(w: World, t: Task)
    requires Inv(w, None)
    ensures Inv(RecoverReadStep(w, t), None)
  {
    if t in w.tasks && t.TaskSnapshot? {
      TaskHolds(w, t);
      JournalSound(w);
      hide Inv;
      TasksInv(w, RecoverReadStep(w, t).tasks);
    }
  }

  /** A proof observed while the owner still stands means the owner is dead. */
  lemma RecoverObserveInv(w: World, t: Task)
    requires Inv(w, None)
    ensures Inv(RecoverObserveStep(w, t), None)
  {
    if t in w.tasks && t.TaskRead? {
      TaskHolds(w, t);
      if OwnerGone(w, t) && t.owner.extension.Some? && t.attempt !in w.retired {
        var q := t.owner.extension.value;
        assert OwnerOk(w, (t.attempt, q));
        if q in w.procs {
          LivingOwner(w, t.attempt, q);
        }
      }
      hide Inv;
      TasksInv(w, RecoverObserveStep(w, t).tasks);
    }
  }

  lemma RecoverDeleteInv(w: World, t: Task)
    requires Inv(w, None)
    ensures Inv(RecoverDeleteStep(w, t), None)
  {
    if t in w.tasks && t.TaskProven? {
      TaskHolds(w, t);
      JournalSound(w);
      if DeleteExact(w.journal, t.attempt, t.extension).1 {
        forall q | q in w.procs ensures w.procs[q].core.extensionLease.None? {
          PcHolds(w, q);
          NobodyOwns(w, q);
        }
        DeleteInv(w, None);
        hide Inv;
        var w' := Record(w, Missing);
        TasksInv(w', w'.tasks - {t} + {TaskDeleted(t.process, t.attempt)});
      } else {
        hide Inv;
        TasksInv(w, w.tasks - {t} + {});
      }
    }
  }

  lemma RecoverFinishInv(w: World, t: Task, i: Input)
    requires Inv(w, None)
    ensures Inv(RecoverFinishStep(w, t, i), None)
  {
    if t in w.tasks && t.TaskDeleted? && MutexFree(w, t.process, Ui) {
      TaskHolds(w, t);
      PcHolds(w, t.process);
      hide Inv, Do;
      TasksInv(w, w.tasks - {t} + {});
      ActInv(Replace(w, t, {}), t.process, DoRecoveryCommit(t.attempt), i, Free, None);
    }
  }

  /** The answer only replaces the other lane of that region. */
  lemma AckDeliveryLanes(w: World, p: ProcessId, region: ProcessId, a: AttemptId, wall: nat)
    requires Inv(w, None) && AckDeliveryStep(w, p, region, a, wall) != w
    ensures LanesOk(AckDeliveryStep(w, p, region, a, wall))
  {
    var w' := AckDeliveryStep(w, p, region, a, wall);
    assert LaneOk(w, region);
    forall r | r in w'.lanes ensures LaneOk(w', r) {
      assert LaneOk(w, r);
    }
  }

  lemma AckDeliveryInv(w: World, p: ProcessId, region: ProcessId, a: AttemptId, wall: nat)
    requires Inv(w, None)
    ensures Inv(AckDeliveryStep(w, p, region, a, wall), None)
  {
    hide OwnerOk, TaskOk, LaneOk, CleanupSound;
    var w' := AckDeliveryStep(w, p, region, a, wall);
    if w' != w {
      AckDeliveryLanes(w, p, region, a, wall);
      forall q | q in w'.procs ensures ProcOk(w', q, None) {
        assert ProcOk(w, q, None);
        hide PcOk, ProcOk, StrayOk, MarkOk;
        ProcFrame(w, w', q, None);
      }
      OwnersFrame(w, w');
      TasksFrame(w, w');
    }
  }

  // ----------------------------------------------------------- creating an owner

  /** The core of a new attempt. */
  predicate Begun(c: Core, d: Core, a: AttemptId) {
    && d.session.attempt == a && d.session.outcome.Pending? && !d.session.cleanup
    && d.extensionLease.None? && d.updatedAt > c.updatedAt && d.fence == c.fence
  }

  /** The journal entry, its issuer and the new attempt's core appear together. */
  function Created(w: World, p: ProcessId, d: Core, landed: nat, issuer: Lease): World
    requires p in w.procs && w.procs[p].pc.BeginLeased?
  {
    var pr := w.procs[p];
    w.(journal := Present(Owner(pr.pc.attempt, p, None, Phase.Pending)), issuer := issuer,
       issuerOf := w.issuerOf[pr.pc.attempt := p],
       procs := w.procs[p := pr.(core := d, pc := Free)],
       lanes := Publish(w, pr, [FrameOf(d)], landed))
  }

  ghost predicate MayCreate(w: World, p: ProcessId, d: Core) {
    && Inv(w, None) && At(w, p, Ui) && w.procs[p].pc.BeginLeased? && w.journal.Missing?
    && Begun(w.procs[p].core, d, w.procs[p].pc.attempt)
  }

  lemma CreatedShape(w: World, p: ProcessId, i: Input)
    requires Inv(w, None) && At(w, p, Ui) && w.procs[p].pc.BeginLeased? && w.journal.Missing?
    ensures var d := BeginCommit(w.procs[p].core, EnvOf(w, w.procs[p], i), w.procs[p].pc.attempt).core;
            && MayCreate(w, p, d)
            && BeginCreateStep(w, p, i) == Created(w, p, d, i.landed, BeginCreateStep(w, p, i).issuer)
  {
    PcHolds(w, p);
    hide Inv;
    var pr := w.procs[p];
    assert w.retired + {} == w.retired && w.owners + {} == w.owners && w.fenced + {} == w.fenced;
    assert pr.core.extensionLease.None?;
  }

  lemma OwnLane(w: World, p: ProcessId)
    requires Inv(w, None) && At(w, p, Ui)
    ensures p in w.lanes && w.procs[p].region == p && CleanupSound(w.procs[p].core.session)
  {
    assert ProcOk(w, p, None);
  }

  lemma CreatedSelf(w: World, p: ProcessId, d: Core, landed: nat, issuer: Lease)
    requires MayCreate(w, p, d)
    ensures ProcOk(Created(w, p, d, landed, issuer), p, None)
  {
    PcHolds(w, p);
    OwnLane(w, p);
    assert ProcOk(w, p, None);
    hide JournalOk, LanesOk, OwnersOk, TasksOk, SingleUi, HistoryOk, Gone;
  }

  lemma CreatedLanes(w: World, p: ProcessId, d: Core, landed: nat, issuer: Lease)
    requires MayCreate(w, p, d)
    ensures LanesOk(Created(w, p, d, landed, issuer))
  {
    PcHolds(w, p);
    OwnLane(w, p);
    hide ProcOk, PcOk, OwnersOk, TasksOk;
    var w' := Created(w, p, d, landed, issuer);
    forall r | r in w'.lanes ensures LaneOk(w', r) {
      assert LaneOk(w, r);
    }
  }

  lemma CreatedPc(w: World, p: ProcessId, d: Core, landed: nat, issuer: Lease, q: ProcessId)
    requires MayCreate(w, p, d) && q in w.procs && q != p
    ensures PcOk(Created(w, p, d, landed, issuer), q, w.procs[q])
  {
    PcHolds(w, p);
    PcHolds(w, q);
    hide LanesOk, OwnersOk, TasksOk;
  }

  lemma CreatedMark(w: World, p: ProcessId, d: Core, landed: nat, issuer: Lease, q: ProcessId)
    requires MayCreate(w, p, d) && q in w.procs && q != p
    ensures MarkOk(Created(w, p, d, landed, issuer), w.procs[q])
  {
    OwnLane(w, p);
    assert ProcOk(w, q, None);
    assert LaneOk(w, p);
    hide PcOk, CleanupSound;
  }

  lemma CreatedOther(w: World, p: ProcessId, d: Core, landed: nat, issuer: Lease, q: ProcessId)
    requires MayCreate(w, p, d) && q in w.procs && q != p
    ensures ProcOk(Created(w, p, d, landed, issuer), q, None)
  {
    NobodyOwns(w, q);
    CreatedPc(w, p, d, landed, issuer, q);
    CreatedMark(w, p, d, landed, issuer, q);
    OwnLane(w, p);
    assert ProcOk(w, q, None);
    hide PcOk, MarkOk, JournalOk, LanesOk, OwnersOk, TasksOk, Gone, CleanupSound;
  }

  lemma CreatedOwners(w: World, p: ProcessId, d: Core, landed: nat, issuer: Lease)
    requires MayCreate(w, p, d)
    ensures OwnersOk(Created(w, p, d, landed, issuer)) && TasksOk(Created(w, p, d, landed, issuer))
  {
    PcHolds(w, p);
    hide ProcOk, LaneOk, PcOk;
    var w' := Created(w, p, d, landed, issuer);
    forall o | o in w'.owners ensures OwnerOk(w', o) {
      assert OwnerOk(w, o);
    }
    forall t | t in w'.tasks ensures TaskOk(w', t) {
      assert TaskOk(w, t);
    }
  }

  lemma CreatedGlobals(w: World, p: ProcessId, d: Core, landed: nat, issuer: Lease)
    requires MayCreate(w, p, d)
    ensures var w' := Created(w, p, d, landed, issuer); JournalOk(w') && HistoryOk(w') && LockOk(w') && SingleUi(w')
  {
    PcHolds(w, p);
    OwnLane(w, p);
    hide ProcOk, LaneOk, OwnerOk, TaskOk;
  }

  lemma CreatedInv(w: World, p: ProcessId, d: Core, landed: nat, issuer: Lease)
    requires MayCreate(w, p, d)
    ensures Inv(Created(w, p, d, landed, issuer), None)
  {
    PcHolds(w, p);
    CreatedGlobals(w, p, d, landed, issuer);
    hide ProcOk, LaneOk, OwnerOk, TaskOk, PcOk, JournalOk, HistoryOk, LockOk, SingleUi, LanesOk, OwnersOk, TasksOk;
    CreatedSelf(w, p, d, landed, issuer);
    CreatedLanes(w, p, d, landed, issuer);
    CreatedOwners(w, p, d, landed, issuer);
    var w' := Created(w, p, d, landed, issuer);
    forall q | q in w'.procs ensures ProcOk(w', q, None) {
      if q != p {
        CreatedOther(w, p, d, landed, issuer, q);
      }
    }
  }

  lemma BeginCreateInv(w: World, p: ProcessId, i: Input)
    requires Inv(w, None)
    ensures Inv(BeginCreateStep(w, p, i), None)
  {
    if At(w, p, Ui) && w.procs[p].pc.BeginLeased? {
      PcHolds(w, p);
      JournalSound(w);
      var a := w.procs[p].pc.attempt;
      assert CreatePending(w.journal, a, p).1 ==> w.journal.Missing?;
      if w.journal.Missing? {
        hide BeginCreateStep, Inv;
        CreatedShape(w, p, i);
        CreatedInv(w, p, BeginCommit(w.procs[p].core, EnvOf(w, w.procs[p], i), a).core, i.landed,
                   BeginCreateStep(w, p, i).issuer);
      } else {
        hide Inv;
        GotoInv(w, p, Free);
        IssuerInv(Goto(w, p, Free), Drop(w.issuer, p));
      }
    }
  }
}
