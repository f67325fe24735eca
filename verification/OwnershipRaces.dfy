/** The actions that race on the journal and on the leases keep the invariant too. */
module OwnershipRaces {
  import opened Wrappers
  import opened OwnerJournal
  import opened PlatformState
  import opened SessionMoves
  import opened MoveFacts
  import opened OwnershipWorld
  import opened OwnershipInvariant
  import opened OwnershipSteps

  /** What a process at work carries over: its pc is sound. */
  lemma PcHolds(w: World, p: ProcessId)
    requires Inv(w, None) && p in w.procs
    ensures PcOk(w, p, w.procs[p]) && LeaseOk(w, p, w.procs[p]) && p !in w.dead
    ensures w.procs[p].core.extensionLease.Some? ==> w.extension.holder == Some(p) && !w.procs[p].pc.BindLeased?
    ensures w.procs[p].role.Ui? ==> w.procs[p].core.extensionLease.None?
  {
    assert ProcOk(w, p, None);
  }

  /** The issuer lease plays no part in exclusivity. */
  lemma IssuerInv(w: World, l: Lease)
    requires Inv(w, None)
    ensures Inv(w.(issuer := l), None)
  {
    hide LaneOk, OwnerOk, TaskOk, CleanupSound;
    var w' := w.(issuer := l);
    forall q | q in w'.procs ensures ProcOk(w', q, None) {
      assert ProcOk(w, q, None);
      hide PcOk, ProcOk, StrayOk, MarkOk;
      ProcFrame(w, w', q, None);
    }
    LanesFrame(w, w');
    OwnersFrame(w, w');
    TasksFrame(w, w');
  }

  /** The task set only has to hold sound tasks. */
  lemma TasksInv(w: World, tasks: set<Task>)
    requires Inv(w, None)
    requires forall t :: t in tasks ==> t in w.tasks || TaskOk(w, t)
    ensures Inv(w.(tasks := tasks), None)
  {
    hide LaneOk, OwnerOk, CleanupSound;
    var w' := w.(tasks := tasks);
    forall q | q in w'.procs ensures ProcOk(w', q, None) {
      assert ProcOk(w, q, None);
      hide PcOk, ProcOk, StrayOk, MarkOk;
      ProcFrame(w, w', q, None);
    }
    LanesFrame(w, w');
    OwnersFrame(w, w');
    forall t | t in w'.tasks ensures TaskOk(w', t) {
      if t in w.tasks {
        assert TaskOk(w, t);
      }
    }
  }

  /** Deleting the entry is safe when nobody alive, except `ex`, holds an Extension lease. */
  lemma DeleteInv(w: World, ex: Option<ProcessId>)
    requires Inv(w, None) && w.journal.Present?
    requires forall q :: q in w.procs && ex != Some(q) ==> w.procs[q].core.extensionLease.None?
    ensures Inv(Record(w, Missing), ex)
  {
    hide LaneOk, TaskOk, CleanupSound;
    var w' := Record(w, Missing);
    forall q | q in w'.procs ensures ProcOk(w', q, ex) {
      assert ProcOk(w, q, None);
      hide PcOk, ProcOk, StrayOk, MarkOk;
      ProcFrame(w, w', q, ex);
    }
    LanesFrame(w, w');
    forall o | o in w'.owners ensures OwnerOk(w', o) {
      assert OwnerOk(w, o);
    }
    TasksFrame(w, w');
  }

  /** Nobody alive holds an Extension lease while the entry is not attached to it. */
  lemma NobodyOwns(w: World, q: ProcessId)
    requires Inv(w, None) && q in w.procs
    requires w.journal.Missing? || w.journal.owner.extension != Some(q)
    ensures w.procs[q].core.extensionLease.None?
  {
    assert ProcOk(w, q, None);
  }

  /** The journal's owner, if alive, holds the lease. */
  lemma LivingOwner(w: World, a: AttemptId, q: ProcessId)
    requires Inv(w, None) && (a, q) in w.owners && q in w.procs && a !in w.retired
    ensures w.procs[q].core.extensionLease == Some(a) && w.extension.holder == Some(q)
    ensures w.journal.AttachedTo(a, q)
  {
    assert OwnerOk(w, (a, q));
    assert ProcOk(w, q, None);
  }

  // -------------------------------------------------------------------- begin

  lemma BeginPickInv(w: World, p: ProcessId, a: AttemptId)
    requires Inv(w, None)
    ensures Inv(BeginPickStep(w, p, a), None)
  {
    if At(w, p, Ui) && w.procs[p].pc.BeginChecked? {
      PcHolds(w, p);
      hide Inv;
      if w.journal.Present? || a == NO_ATTEMPT || a in w.issuerOf {
        GotoInv(w, p, Free);
      } else {
        GotoInv(w, p, BeginPicked(a));
      }
    }
  }

  lemma BeginLeaseInv(w: World, p: ProcessId)
    requires Inv(w, None)
    ensures Inv(BeginLeaseStep(w, p), None)
  {
    if At(w, p, Ui) && w.procs[p].pc.BeginPicked? {
      PcHolds(w, p);
      hide Inv;
      var a := w.procs[p].pc.attempt;
      var (lease, ok) := Acquire(w.issuer, LeaseRecord(a, p));
      if ok {
        GotoInv(w, p, BeginLeased(a));
        IssuerInv(Goto(w, p, BeginLeased(a)), lease);
      } else {
        GotoInv(w, p, Free);
      }
    }
  }

  // --------------------------------------------------------------------- bind

  lemma BindReadInv(w: World, p: ProcessId)
    requires Inv(w, None)
    ensures Inv(BindReadStep(w, p), None)
  {
    if At(w, p, Extension) && w.procs[p].pc.BindSynced? {
      PcHolds(w, p);
      var a := w.procs[p].pc.attempt;
      var path := BindDecide(w.procs[p].core, w.journal, a, p);
      assert JournalOk(w);
      if path.BindRelock? {
        LivingOwner(w, a, p);
        assert false;
      } else {
        hide Inv;
        GotoInv(w, p, if path.BindRefused? then Free else if path.BindHeld? then BindOwned(a) else BindRead(a, path));
      }
    }
  }

  lemma BindObserveInv(w: World, p: ProcessId)
    requires Inv(w, None)
    ensures Inv(BindObserveStep(w, p), None)
  {
    if At(w, p, Extension) && w.procs[p].pc.BindRead? {
      PcHolds(w, p);
      hide Inv;
      var a, path := w.procs[p].pc.attempt, w.procs[p].pc.path;
      GotoInv(w, p, BindVerified(a, path));
      GotoInv(w, p, Free);
    }
  }

  lemma BindAcquireInv(w: World, p: ProcessId)
    requires Inv(w, None)
    ensures Inv(BindAcquireStep(w, p), None)
  {
    if At(w, p, Extension) && w.procs[p].pc.BindVerified? {
      PcHolds(w, p);
      hide Inv;
      if w.extension.holder.None? {
        AcquireFree(w, p);
      } else {
        GotoInv(w, p, Free);
      }
    }
  }

  lemma AcquireSelf(w: World, p: ProcessId)
    requires Inv(w, None) && At(w, p, Extension) && w.procs[p].pc.BindVerified? && w.extension.holder.None?
    ensures ProcOk(BindAcquireStep(w, p), p, None)
  {
    PcHolds(w, p);
    assert ProcOk(w, p, None);
    hide CleanupSound, Gone, JournalOk, LanesOk, OwnersOk, TasksOk, SingleUi, HistoryOk;
  }

  lemma AcquireFree(w: World, p: ProcessId)
    requires Inv(w, None) && At(w, p, Extension) && w.procs[p].pc.BindVerified? && w.extension.holder.None?
    ensures Inv(BindAcquireStep(w, p), None)
  {
    hide ProcOk, LaneOk, OwnerOk, TaskOk, PcOk;
    PcHolds(w, p);
    AcquireSelf(w, p);
    var w' := BindAcquireStep(w, p);
    AcquireShape(w, p);
    OthersFrame(w, w', p);
    LanesFrame(w, w');
    OwnersFrame(w, w');
    TasksFrame(w, w');
  }

  lemma AcquireShape(w: World, p: ProcessId)
    requires Inv(w, None) && At(w, p, Extension) && w.procs[p].pc.BindVerified? && w.extension.holder.None?
    ensures var w', pc := BindAcquireStep(w, p), w.procs[p].pc;
            w' == Goto(w, p, BindLeased(pc.attempt, pc.path)).(
                    extension := Lease(Some(p), Some(LeaseRecord(pc.attempt, p))))
  {
    PcHolds(w, p);
    assert ProcOk(w, p, None);
  }

  /** A bind that loses its swap drops the fresh lease. */
  lemma SwapFailInv(w: World, p: ProcessId)
    requires Inv(w, None) && At(w, p, Extension) && w.procs[p].pc.BindLeased?
    ensures Inv(Goto(w, p, Free).(extension := Drop(w.extension, p)), None)
  {
    hide ProcOk, LaneOk, OwnerOk, TaskOk, PcOk;
    PcHolds(w, p);
    var w' := Goto(w, p, Free).(extension := Drop(w.extension, p));
    SwapFailSelf(w, p);
    OthersFrame(w, w', p);
    LanesFrame(w, w');
    OwnersFrame(w, w');
    TasksFrame(w, w');
  }

  lemma SwapFailSelf(w: World, p: ProcessId)
    requires Inv(w, None) && At(w, p, Extension) && w.procs[p].pc.BindLeased?
    ensures ProcOk(Goto(w, p, Free).(extension := Drop(w.extension, p)), p, None)
    ensures w.extension.holder == Some(p)
  {
    PcHolds(w, p);
    assert ProcOk(w, p, None);
    hide CleanupSound, Gone, JournalOk, LanesOk, OwnersOk, TasksOk, SingleUi, HistoryOk, PathOk;
  }

  /** The world after a won swap: the journal names p, and p keeps the lease. */
  function Swapped(w: World, p: ProcessId, a: AttemptId, j: Journal): World
    requires p in w.procs
  {
    var pr := w.procs[p];
    Record(w, j).(procs := w.procs[p := pr.(core := pr.core.(extensionLease := Some(a)), pc := BindOwned(a))])
  }

  /** A swap only succeeds on the attempt it read, from Pending or from an owner that is dead. */
  lemma SwapShape(w: World, p: ProcessId, j: Journal)
    requires Inv(w, None) && At(w, p, Extension) && w.procs[p].pc.BindLeased?
    requires var pc := w.procs[p].pc;
             || (pc.path.BindFresh? && UpgradeAttached(w.journal, pc.attempt, pc.path.owner.issuer, p) == (j, true))
             || (pc.path.BindOver? && pc.path.owner.extension.Some?
                 && RebindAttached(w.journal, pc.attempt, pc.path.owner.issuer, pc.path.owner.extension.value, p) == (j, true))
    ensures var a := w.procs[p].pc.attempt;
            && w.journal.Present? && w.journal.owner.attempt == a && j.AttachedTo(a, p) && j.Valid()
            && a !in w.fenced && a in w.issuerOf && a !in w.retired
            && (w.journal.owner.extension.Some? ==> w.journal.owner.extension.value in w.dead)
  {
    PcHolds(w, p);
    var a := w.procs[p].pc.attempt;
    if w.journal.Present? && w.journal.owner.extension.Some? && w.journal.owner.attempt == a {
      var q := w.journal.owner.extension.value;
      assert OwnerOk(w, (a, q));
      if q in w.procs {
        LivingOwner(w, a, q);
      }
    }
  }

  lemma SwapSelf(w: World, p: ProcessId, j: Journal)
    requires Inv(w, None) && At(w, p, Extension) && w.procs[p].pc.BindLeased?
    requires j.AttachedTo(w.procs[p].pc.attempt, p)
    ensures ProcOk(Swapped(w, p, w.procs[p].pc.attempt, j), p, None)
  {
    PcHolds(w, p);
    assert ProcOk(w, p, None);
    hide CleanupSound, Gone, JournalOk, LanesOk, OwnersOk, TasksOk, SingleUi, HistoryOk, PathOk;
  }

  lemma SwapOther(w: World, p: ProcessId, j: Journal, q: ProcessId)
    requires Inv(w, None) && At(w, p, Extension) && w.procs[p].pc.BindLeased? && q in w.procs && q != p
    requires w.journal.Present? && j.Present? && j.owner.attempt == w.journal.owner.attempt
    ensures ProcOk(Swapped(w, p, w.procs[p].pc.attempt, j), q, None)
  {
    PcHolds(w, p);
    PcHolds(w, q);
    assert ProcOk(w, q, None);
    var w' := Swapped(w, p, w.procs[p].pc.attempt, j);
    assert forall b :: Gone(w, b) ==> Gone(w', b);
    hide PcOk, StrayOk, MarkOk, Gone, CleanupSound;
    ProcFrame(w, w', q, None);
  }

  lemma SwapOwners(w: World, p: ProcessId, j: Journal)
    requires Inv(w, None) && At(w, p, Extension) && w.procs[p].pc.BindLeased?
    requires var a := w.procs[p].pc.attempt;
             && w.journal.Present? && w.journal.owner.attempt == a && j.AttachedTo(a, p)
             && a !in w.fenced && a in w.issuerOf
    ensures OwnersOk(Swapped(w, p, w.procs[p].pc.attempt, j))
  {
    PcHolds(w, p);
    var w' := Swapped(w, p, w.procs[p].pc.attempt, j);
    forall o | o in w'.owners ensures OwnerOk(w', o) {
      if o in w.owners {
        assert OwnerOk(w, o);
      }
    }
  }

  lemma SwapWinInv(w: World, p: ProcessId, j: Journal)
    requires Inv(w, None) && At(w, p, Extension) && w.procs[p].pc.BindLeased?
    requires var a := w.procs[p].pc.attempt;
             && w.journal.Present? && w.journal.owner.attempt == a && j.AttachedTo(a, p) && j.Valid()
             && a !in w.fenced && a in w.issuerOf && a !in w.retired
    ensures Inv(Swapped(w, p, w.procs[p].pc.attempt, j), None)
  {
    hide ProcOk, LaneOk, OwnerOk, TaskOk, PcOk;
    var w' := Swapped(w, p, w.procs[p].pc.attempt, j);
    PcHolds(w, p);
    SwapSelf(w, p, j);
    forall q | q in w'.procs ensures ProcOk(w', q, None) {
      if q != p {
        SwapOther(w, p, j, q);
      }
    }
    NoOwnLane(w, p);
    LanesFrame(w, w');
    SwapOwners(w, p, j);
    TasksFrame(w, w');
  }

  lemma BindSwapInv(w: World, p: ProcessId)
    requires Inv(w, None)
    ensures Inv(BindSwapStep(w, p), None)
  {
    if At(w, p, Extension) && w.procs[p].pc.BindLeased? {
      PcHolds(w, p);
      var pc := w.procs[p].pc;
      var (j, ok) :=
        if pc.path.BindFresh? then UpgradeAttached(w.journal, pc.attempt, pc.path.owner.issuer, p)
        else RebindAttached(w.journal, pc.attempt, pc.path.owner.issuer, pc.path.owner.extension.value, p);
      hide Inv, RebindAttached, UpgradeAttached;
      if ok {
        SwapShape(w, p, j);
        SwapWinInv(w, p, j);
      } else {
        SwapFailInv(w, p);
      }
    }
  }
}
