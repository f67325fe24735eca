/** The inductive invariant of the ownership protocol. */
module OwnershipInvariant {
  import opened Wrappers
  import opened OwnerJournal
  import opened PlatformState
  import opened SessionMoves
  import opened MoveFacts
  import opened OwnershipWorld

  predicate JournalOk(w: World) {
    && w.journal.Valid()
    && (w.journal.Present? ==>
          var o := w.journal.owner;
          && o.attempt !in w.retired && o.attempt in w.issuerOf
          && (o.extension.Some? ==> (o.attempt, o.extension.value) in w.owners)
          && (o.phase.Stopping? <==> o.attempt in w.fenced))
  }

  ghost predicate HistoryOk(w: World) {
    && w.retired <= w.issuerOf.Keys
    && w.fenced <= w.issuerOf.Keys
    && NO_ATTEMPT !in w.issuerOf && NO_PROCESS !in w.lanes
    && (forall b :: b in w.issuerOf ==> w.issuerOf[b] in w.lanes)
  }

  predicate Holds(pr: Process) {
    pr.core.extensionLease.Some? || pr.pc.BindLeased?
  }

  predicate LockOk(w: World) {
    w.extension.holder.Some? ==> w.extension.holder.value in w.procs && Holds(w.procs[w.extension.holder.value])
  }

  ghost predicate SingleUi(w: World) {
    forall p, q :: p in w.procs && q in w.procs && w.procs[p].role.Ui? && w.procs[q].role.Ui? ==> p == q
  }

  // ------------------------------------------------------------- processes

  predicate BeginGuard(c: Core) {
    c.fence.epoch == 0 && !c.session.outcome.Pending? && !c.session.running
    && (c.session.attempt != NO_ATTEMPT ==> c.session.cleanup)
  }

  predicate ClaimGuard(c: Core, epoch: nat, a: AttemptId) {
    epoch != 0 && c.fence.intent == epoch && !c.fence.inFlight && (c.fence.epoch != 0 ==> c.fence.attempt == a)
  }

  predicate AckGuard(c: Core, a: AttemptId) {
    a != NO_ATTEMPT && c.session.attempt == a && Terminal(c.session.outcome) && !c.session.running && !c.session.starting
  }

  predicate BindGuard(pr: Process, a: AttemptId) {
    pr.role.Extension? && a != NO_ATTEMPT && pr.core.session.attempt == a
  }

  predicate PathOk(w: World, p: ProcessId, a: AttemptId, path: BindPath) {
    match path
    case BindFresh(o) => o.attempt == a
    case BindOver(o) => o.attempt == a && o.extension.Some? && o.extension.value != p && (a, o.extension.value) in w.owners
    case _ => false
  }

  predicate PcOk(w: World, p: ProcessId, pr: Process) {
    match pr.pc
    case Free => true
    case BeginChecked => pr.role.Ui? && BeginGuard(pr.core)
    case BeginPicked(a) => pr.role.Ui? && BeginGuard(pr.core) && a != NO_ATTEMPT && a !in w.issuerOf
    case BeginLeased(a) => pr.role.Ui? && BeginGuard(pr.core) && a != NO_ATTEMPT && a !in w.issuerOf
    case BindSynced(a) => BindGuard(pr, a)
    case BindRead(a, path) => BindGuard(pr, a) && PathOk(w, p, a, path)
    case BindVerified(a, path) => BindGuard(pr, a) && PathOk(w, p, a, path)
    case BindLeased(a, path) =>
      && BindGuard(pr, a) && PathOk(w, p, a, path)
      && w.extension.holder == Some(p) && pr.core.extensionLease.None?
    case BindOwned(a) => pr.role.Extension?
    case ClaimSynced(epoch) => pr.role.Ui? && epoch != 0 && pr.core.fence.intent == epoch && !pr.core.fence.inFlight
    case ClaimRead(epoch, o) =>
      pr.role.Ui? && ClaimGuard(pr.core, epoch, o.attempt)
      && pr.core.session.attempt != NO_ATTEMPT && !pr.core.session.cleanup
    case ClaimFencing(epoch, o) => pr.role.Ui? && ClaimGuard(pr.core, epoch, o.attempt)
    case ClaimLost(epoch, a) => pr.role.Ui? && ClaimGuard(pr.core, epoch, a)
    case AckReady(a) => pr.role.Extension? && AckGuard(pr.core, a)
    case AckMatched(a) => pr.role.Extension? && AckGuard(pr.core, a)
    case FailReady(a, req) =>
      a != NO_ATTEMPT && pr.core.session.attempt == a && pr.core.session.outcome.Pending? && (req ==> pr.role.Ui?)
  }

  /** A UI core's attempt is its own, and is the journal's whenever the journal has one. */
  predicate UiOk(w: World, p: ProcessId, pr: Process) {
    && pr.region == p && p in w.lanes && pr.core.extensionLease.None?
    && (pr.core.session.attempt != NO_ATTEMPT ==>
          pr.core.session.attempt in w.issuerOf && w.issuerOf[pr.core.session.attempt] == p)
  }

  predicate UiAgrees(w: World, pr: Process) {
    pr.core.session.attempt != NO_ATTEMPT && w.journal.Present? ==> w.journal.owner.attempt == pr.core.session.attempt
  }

  /** Nobody can mark attempt `b` cleaned up any more. */
  predicate Gone(w: World, b: AttemptId) {
    b in w.issuerOf &&
    var u := w.issuerOf[b];
    && (u in w.procs ==> w.procs[u].role.Ui? && w.procs[u].core.session.attempt != b)
    && (u in w.lanes && w.lanes[u].ui.Some? && w.lanes[u].ui.value.session.attempt == b ==>
          !w.lanes[u].ui.value.session.cleanup)
  }

  /** An Extension that strayed to another attempt while owning one cannot be talked out of its lease. */
  predicate StrayOk(w: World, pr: Process) {
    pr.core.extensionLease.Some? && pr.core.session.attempt != pr.core.extensionLease.value
    && pr.core.session.attempt != NO_ATTEMPT ==>
      !pr.core.session.cleanup && Gone(w, pr.core.session.attempt)
  }

  predicate LeaseOk(w: World, p: ProcessId, pr: Process) {
    pr.core.extensionLease.Some? ==>
      w.journal.AttachedTo(pr.core.extensionLease.value, p)
  }

  /** The mark never passes the lane, and a terminal frame at the mark has been applied. */
  predicate MarkOk(w: World, pr: Process) {
    pr.role.Extension? && pr.region in w.lanes ==>
      var ui := w.lanes[pr.region].ui;
      if ui.None? then pr.core.watch.remoteUpdatedAt == 0
      else
        && pr.core.watch.remoteUpdatedAt <= ui.value.updatedAt
        && (pr.core.watch.remoteUpdatedAt == ui.value.updatedAt
            && ui.value.session.attempt == pr.core.session.attempt && Terminal(ui.value.session.outcome)
            ==> Terminal(pr.core.session.outcome))
  }

  predicate BasicOk(w: World, p: ProcessId, pr: Process) {
    && p != NO_PROCESS && p !in w.dead
    && CleanupSound(pr.core.session)
    && (pr.core.session.cleanup ==> pr.core.session.attempt in w.retired)
    && (pr.core.session.attempt != NO_ATTEMPT ==> pr.core.session.attempt in w.issuerOf)
    && (pr.core.extensionLease.Some? ==> w.extension.holder == Some(p) && !pr.pc.BindLeased?)
    && (pr.role.Extension? ==> p !in w.lanes && (pr.region == NO_PROCESS || pr.region in w.lanes))
  }

  /** `ex` names a process in the middle of a step, exempt from agreeing with the journal. */
  predicate ProcOk(w: World, p: ProcessId, ex: Option<ProcessId>)
    requires p in w.procs
  {
    var pr := w.procs[p];
    && BasicOk(w, p, pr) && PcOk(w, p, pr) && StrayOk(w, pr) && MarkOk(w, pr)
    && (pr.role.Ui? ==> UiOk(w, p, pr))
    && (ex != Some(p) ==> LeaseOk(w, p, pr) && (pr.role.Ui? ==> UiAgrees(w, pr)))
  }

  ghost predicate ProcsOk(w: World, ex: Option<ProcessId>) {
    forall p :: p in w.procs ==> ProcOk(w, p, ex)
  }

  // ----------------------------------------------------- lanes, owners, tasks

  predicate FrameOk(w: World, s: Session) {
    && CleanupSound(s)
    && (s.cleanup ==> s.attempt in w.retired)
    && (s.attempt != NO_ATTEMPT ==> s.attempt in w.issuerOf)
  }

  predicate LaneOk(w: World, r: ProcessId)
    requires r in w.lanes
  {
    && (r in w.procs ==> w.procs[r].role.Ui?)
    && (w.lanes[r].extension.Some? ==> FrameOk(w, w.lanes[r].extension.value.session))
    && (w.lanes[r].ui.Some? ==>
          var f := w.lanes[r].ui.value;
          && FrameOk(w, f.session) && f.updatedAt > 0
          && (f.session.attempt != NO_ATTEMPT ==> w.issuerOf[f.session.attempt] == r)
          && (r in w.procs ==>
                && f.updatedAt <= w.procs[r].core.updatedAt
                && (f.session.attempt == w.procs[r].core.session.attempt && Terminal(f.session.outcome)
                    ==> Terminal(w.procs[r].core.session.outcome))))
  }

  ghost predicate LanesOk(w: World) {
    forall r :: r in w.lanes ==> LaneOk(w, r)
  }

  /** Whoever owned an attempt is dead, or the attempt is over, or it still holds the lease. */
  predicate OwnerOk(w: World, o: (AttemptId, ProcessId)) {
    && o.0 in w.issuerOf && o.0 !in w.fenced
    && (w.journal.Present? && w.journal.owner.attempt == o.0 ==> w.journal.owner.phase.Attached?)
    && (o.1 in w.dead || o.0 in w.retired
        || (o.1 in w.procs && w.procs[o.1].role.Extension? && w.procs[o.1].core.extensionLease == Some(o.0)))
  }

  ghost predicate OwnersOk(w: World) {
    forall o :: o in w.owners ==> OwnerOk(w, o)
  }

  predicate TaskOk(w: World, t: Task) {
    && t.process in w.procs && w.procs[t.process].role.Ui? && t.attempt != NO_ATTEMPT
    && match t
       case TaskSnapshot(_, _, _) => true
       case TaskRead(_, a, _, o) => o.attempt == a && (o.extension.Some? ==> (a, o.extension.value) in w.owners)
       case TaskProven(_, a, e) => e.Some? ==> e.value in w.dead || a in w.retired
       case TaskDeleted(_, a) => a in w.retired
  }

  ghost predicate TasksOk(w: World) {
    forall t :: t in w.tasks ==> TaskOk(w, t)
  }

  ghost predicate Inv(w: World, ex: Option<ProcessId>) {
    && JournalOk(w) && HistoryOk(w) && LockOk(w) && SingleUi(w)
    && ProcsOk(w, ex) && LanesOk(w) && OwnersOk(w) && TasksOk(w)
  }

  // ------------------------------------------------- one plain move of a core

  /** What Act needs to know about the move it makes. */
  ghost predicate ActOk(w: World, p: ProcessId, m: Move, i: Input, pc: Pc)
    requires p in w.procs
  {
    var pr := w.procs[p];
    && Enabled(pr.core, m)
    && !m.DoBeginCommit? && !m.DoTakeExtensionLease? && !m.DoAttachLane?
    && (m.DoBindAdopt? ==> pr.role.Extension?)
    && (Closed(pr.core, m) != NO_ATTEMPT ==>
          && Closed(pr.core, m) in w.retired
          && (pr.core.extensionLease.Some? ==> pr.core.extensionLease.value in w.retired)
          && (pr.role.Extension? ==> m.DoCleanupCommit?))
    && !pr.pc.BindLeased? && !pc.BindLeased?
  }

  /** The lane a process reads is sound, whatever its role. */
  lemma PeerFrameOk(w: World, p: ProcessId, i: Input)
    requires p in w.procs && LanesOk(w)
    ensures var lane := EnvOf(w, w.procs[p], i).lane;
            lane.Some? ==> FrameOk(w, lane.value.session)
  {
    var pr := w.procs[p];
    if pr.region in w.lanes {
      assert LaneOk(w, pr.region);
    }
  }

  lemma ActBasics(w: World, p: ProcessId, m: Move, i: Input, pc: Pc)
    requires p in w.procs && ActOk(w, p, m, i, pc) && LanesOk(w)
    requires BasicOk(w, p, w.procs[p]) && HistoryOk(w)
    ensures var w' := Act(w, p, m, i, pc);
            && w'.procs[p].role == w.procs[p].role && w'.procs[p].region == w.procs[p].region && w'.procs[p].pc == pc
            && Plain(w.procs[p].core, EnvOf(w, w.procs[p], i), Closed(w.procs[p].core, m),
                     Do(w.procs[p].core, EnvOf(w, w.procs[p], i), m))
            && Keeps(w.procs[p].core.session, Do(w.procs[p].core, EnvOf(w, w.procs[p], i), m))
            && CleanupSound(w'.procs[p].core.session)
            && (w'.procs[p].core.session.cleanup ==> w'.procs[p].core.session.attempt in w.retired)
            && (w'.procs[p].core.session.attempt != NO_ATTEMPT ==> w'.procs[p].core.session.attempt in w.issuerOf)
  {
    hide Do, Enabled, StartFrame;
    var pr := w.procs[p];
    PeerFrameOk(w, p, i);
    MovePlain(pr.core, EnvOf(w, pr, i), m);
    MoveKeepsBarrier(pr.core, EnvOf(w, pr, i), m);
    StartFrameAttempt(EnvOf(w, pr, i).lane, Do(pr.core, EnvOf(w, pr, i), m).core.session.attempt);
  }

  lemma StartFrameAttempt(lane: Option<Frame>, a: AttemptId)
    ensures StartFrame(lane, a) ==> lane.Some? && lane.value.session.attempt == a && !Terminal(lane.value.session.outcome)
  {
  }

  /** Inv where only the acting process may disagree with the journal, and only while giving up its lease. */
  ghost predicate MayAct(w: World, p: ProcessId, m: Move, i: Input, pc: Pc, ex: Option<ProcessId>) {
    && Inv(w, ex) && p in w.procs && ActOk(w, p, m, i, pc)
    && (ex == None || (ex == Some(p) && w.procs[p].role.Extension? && m.DoCleanupCommit?))
  }

  /** The lane the acting process publishes on stays sound. */
  lemma ActOwnLane(w: World, p: ProcessId, m: Move, i: Input, pc: Pc, ex: Option<ProcessId>)
    requires MayAct(w, p, m, i, pc, ex) && w.procs[p].region in w.lanes
    ensures LaneOk(Act(w, p, m, i, pc), w.procs[p].region)
  {
    hide Do, Enabled, StartFrame, CleanupSound, MarkOk, StrayOk, Gone, PcOk;
    var pr := w.procs[p];
    var e := Do(pr.core, EnvOf(w, pr, i), m);
    assert ProcOk(w, p, ex);
    assert LaneOk(w, pr.region);
    ActBasics(w, p, m, i, pc);
    PeerFrameOk(w, p, i);
    if i.landed < |e.published| {
      StartFrameAttempt(EnvOf(w, pr, i).lane, e.published[i.landed].session.attempt);
    }
  }

  lemma ActLanes(w: World, p: ProcessId, m: Move, i: Input, pc: Pc, ex: Option<ProcessId>)
    requires MayAct(w, p, m, i, pc, ex)
    ensures LanesOk(Act(w, p, m, i, pc))
  {
    hide Do, Enabled, StartFrame, CleanupSound, MarkOk, StrayOk, Gone, PcOk, Plain, Keeps;
    var w' := Act(w, p, m, i, pc);
    assert ProcOk(w, p, ex);
    ActBasics(w, p, m, i, pc);
    forall r | r in w'.lanes ensures LaneOk(w', r) {
      if r == w.procs[p].region {
        ActOwnLane(w, p, m, i, pc, ex);
      } else {
        assert LaneOk(w, r);
      }
    }
  }

  lemma ActGone(w: World, p: ProcessId, m: Move, i: Input, pc: Pc, ex: Option<ProcessId>, b: AttemptId)
    requires MayAct(w, p, m, i, pc, ex) && Gone(w, b)
    ensures Gone(Act(w, p, m, i, pc), b)
  {
    hide Do, Enabled, StartFrame, CleanupSound;
    var pr := w.procs[p];
    assert ProcOk(w, p, ex);
    ActBasics(w, p, m, i, pc);
    if pr.region in w.lanes {
      assert LaneOk(w, pr.region);
    }
  }

  lemma ActMark(w: World, p: ProcessId, m: Move, i: Input, pc: Pc, ex: Option<ProcessId>, q: ProcessId)
    requires MayAct(w, p, m, i, pc, ex) && q in w.procs
    ensures MarkOk(Act(w, p, m, i, pc), Act(w, p, m, i, pc).procs[q])
  {
    hide Do, Enabled, StartFrame, CleanupSound;
    assert ProcOk(w, p, ex) && ProcOk(w, q, ex);
    ActBasics(w, p, m, i, pc);
    if w.procs[q].region in w.lanes {
      assert LaneOk(w, w.procs[q].region);
    }
    StartFrameAttempt(EnvOf(w, w.procs[p], i).lane, Act(w, p, m, i, pc).procs[p].core.session.attempt);
  }

  /** Everybody else is unaffected. */
  lemma ActOthers(w: World, p: ProcessId, m: Move, i: Input, pc: Pc, ex: Option<ProcessId>, q: ProcessId)
    requires MayAct(w, p, m, i, pc, ex) && q in w.procs && q != p
    ensures ProcOk(Act(w, p, m, i, pc), q, None)
  {
    hide Do, Enabled, StartFrame, CleanupSound, MarkOk, Gone, Plain, Keeps;
    assert ProcOk(w, q, ex);
    ActMark(w, p, m, i, pc, ex, q);
    if Gone(w, w.procs[q].core.session.attempt) {
      ActGone(w, p, m, i, pc, ex, w.procs[q].core.session.attempt);
    }
  }

  /** A kept lease stays safe; a dropped one belonged to an attempt that is over. */
  lemma ActLease(w: World, p: ProcessId, m: Move, i: Input, pc: Pc, ex: Option<ProcessId>)
    requires MayAct(w, p, m, i, pc, ex)
    ensures var w' := Act(w, p, m, i, pc);
            && (w'.procs[p].core.extensionLease == w.procs[p].core.extensionLease
                || (w'.procs[p].core.extensionLease.None? && w.procs[p].core.extensionLease.Some?
                    && w.procs[p].core.extensionLease.value in w.retired))
            && StrayOk(w', w'.procs[p])
            && (m.DoCleanupCommit? ==> w'.procs[p].core.extensionLease.None?)
  {
    hide Do, Enabled, StartFrame, Keeps;
    var pr := w.procs[p];
    var w' := Act(w, p, m, i, pc);
    assert ProcOk(w, p, ex);
    ActBasics(w, p, m, i, pc);
    PeerFrameOk(w, p, i);
    CleanupCommitDrops(pr.core, EnvOf(w, pr, i), m);
    StartFrameAttempt(EnvOf(w, pr, i).lane, w'.procs[p].core.session.attempt);
    if Gone(w, pr.core.session.attempt) {
      ActGone(w, p, m, i, pc, ex, pr.core.session.attempt);
    }
    if pr.region in w.lanes {
      assert LaneOk(w, pr.region);
      if pr.region in w.procs {
        assert ProcOk(w, pr.region, ex);
      }
    }
  }

  lemma CleanupCommitDrops(c: Core, env: Env, m: Move)
    ensures m.DoCleanupCommit? ==> Do(c, env, m).core.extensionLease.None?
  {
  }

  lemma ActSelf(w: World, p: ProcessId, m: Move, i: Input, pc: Pc, ex: Option<ProcessId>)
    requires MayAct(w, p, m, i, pc, ex)
    requires PcOk(Act(w, p, m, i, pc), p, Act(w, p, m, i, pc).procs[p])
    ensures ProcOk(Act(w, p, m, i, pc), p, None)
  {
    hide Do, Enabled, StartFrame, CleanupSound, MarkOk, Gone, Keeps, PcOk;
    assert ProcOk(w, p, ex);
    ActBasics(w, p, m, i, pc);
    ActLease(w, p, m, i, pc, ex);
    ActMark(w, p, m, i, pc, ex, p);
  }

  lemma ActOwners(w: World, p: ProcessId, m: Move, i: Input, pc: Pc, ex: Option<ProcessId>)
    requires MayAct(w, p, m, i, pc, ex)
    ensures OwnersOk(Act(w, p, m, i, pc)) && TasksOk(Act(w, p, m, i, pc)) && LockOk(Act(w, p, m, i, pc))
    ensures SingleUi(Act(w, p, m, i, pc))
  {
    hide Do, Enabled, StartFrame, CleanupSound, MarkOk, Gone, Keeps, PcOk, Plain;
    var w' := Act(w, p, m, i, pc);
    assert ProcOk(w, p, ex);
    ActLease(w, p, m, i, pc, ex);
    forall o | o in w'.owners ensures OwnerOk(w', o) {
      assert OwnerOk(w, o);
    }
    forall t | t in w'.tasks ensures TaskOk(w', t) {
      assert TaskOk(w, t);
    }
    if w.extension.holder.Some? && w.extension.holder.value != p {
      assert w.extension.holder.value in w.procs;
    }
  }

  /** One plain move of one process, wherever it stands, keeps the whole invariant. */
  lemma ActInv(w: World, p: ProcessId, m: Move, i: Input, pc: Pc, ex: Option<ProcessId>)
    requires MayAct(w, p, m, i, pc, ex)
    requires PcOk(Act(w, p, m, i, pc), p, Act(w, p, m, i, pc).procs[p])
    ensures Inv(Act(w, p, m, i, pc), None)
  {
    hide Do, Enabled, ProcOk, LaneOk, OwnerOk, TaskOk, PcOk, ActOk;
    var w' := Act(w, p, m, i, pc);
    ActLanes(w, p, m, i, pc, ex);
    ActOwners(w, p, m, i, pc, ex);
    ActSelf(w, p, m, i, pc, ex);
    forall q | q in w'.procs ensures ProcOk(w', q, None) {
      if q != p {
        ActOthers(w, p, m, i, pc, ex, q);
      }
    }
  }

  // ------------------------------------------------------------- framing

  /** Nothing an unchanged process relies on was taken away from it. */
  ghost predicate Undisturbed(w: World, w': World, q: ProcessId)
    requires q in w.procs
  {
    && q !in w'.dead && w.retired <= w'.retired && w.issuerOf == w'.issuerOf && w.owners <= w'.owners
    && (w.extension.holder == Some(q) <==> w'.extension.holder == Some(q))
    && w.lanes.Keys == w'.lanes.Keys
    && (w.procs[q].region in w.lanes ==> w'.lanes[w.procs[q].region].ui == w.lanes[w.procs[q].region].ui)
    && (forall b :: Gone(w, b) ==> Gone(w', b))
  }

  lemma PcFrame(w: World, w': World, q: ProcessId)
    requires q in w.procs && Undisturbed(w, w', q) && PcOk(w, q, w.procs[q])
    ensures PcOk(w', q, w.procs[q])
  {
  }

  lemma ProcFrame(w: World, w': World, q: ProcessId, ex: Option<ProcessId>)
    requires q in w.procs && Undisturbed(w, w', q) && ProcOk(w, q, None)
    requires q in w'.procs && w'.procs[q] == w.procs[q]
    requires ex != Some(q) ==> LeaseOk(w', q, w.procs[q]) && (w.procs[q].role.Ui? ==> UiAgrees(w', w.procs[q]))
    ensures ProcOk(w', q, ex)
  {
    hide PcOk, CleanupSound;
    PcFrame(w, w', q);
  }

  lemma LanesFrame(w: World, w': World)
    requires LanesOk(w) && w'.lanes == w.lanes && w.retired <= w'.retired && w.issuerOf == w'.issuerOf
    requires forall r :: r in w.lanes && r in w'.procs ==>
               r in w.procs && w'.procs[r].core == w.procs[r].core && w'.procs[r].role == w.procs[r].role
    ensures LanesOk(w')
  {
    hide CleanupSound;
    forall r | r in w'.lanes ensures LaneOk(w', r) {
      assert LaneOk(w, r);
    }
  }

  lemma OwnersFrame(w: World, w': World)
    requires OwnersOk(w) && w.dead <= w'.dead && w.retired <= w'.retired
    requires w'.journal == w.journal || w'.journal.Missing?
    requires w'.owners == w.owners && w'.issuerOf == w.issuerOf && w'.fenced == w.fenced
    requires forall q :: q in w.procs ==>
               || q in w'.dead
               || (q in w'.procs && w'.procs[q].role == w.procs[q].role
                   && w'.procs[q].core.extensionLease == w.procs[q].core.extensionLease)
    ensures OwnersOk(w')
  {
    forall o | o in w'.owners ensures OwnerOk(w', o) {
      assert OwnerOk(w, o);
    }
  }

  lemma TasksFrame(w: World, w': World)
    requires TasksOk(w) && w'.tasks <= w.tasks && w.dead <= w'.dead && w.retired <= w'.retired && w.owners <= w'.owners
    requires forall t :: t in w'.tasks && t.process in w.procs ==>
               t.process in w'.procs && w'.procs[t.process].role == w.procs[t.process].role
    ensures TasksOk(w')
  {
    forall t | t in w'.tasks ensures TaskOk(w', t) {
      assert TaskOk(w, t);
    }
  }

  /** Only p, the lease holder p, the past and the dead may differ. */
  ghost predicate OnlyTouches(w: World, w': World, p: ProcessId) {
    && w'.lanes == w.lanes && w'.issuerOf == w.issuerOf && w.retired <= w'.retired && w.owners <= w'.owners
    && w.dead <= w'.dead <= w.dead + {p}
    && (forall q :: q in w'.procs && q != p ==> q in w.procs && w'.procs[q] == w.procs[q])
    && (p in w'.procs ==>
          && p in w.procs && w'.procs[p].role == w.procs[p].role
          && w'.procs[p].core.session.attempt == w.procs[p].core.session.attempt)
    && (w'.extension.holder == w.extension.holder
        || (w.extension.holder == None && w'.extension.holder == Some(p))
        || (w.extension.holder == Some(p) && w'.extension.holder == None))
  }

  lemma GoneFrame(w: World, w': World, p: ProcessId, b: AttemptId)
    requires OnlyTouches(w, w', p) && Gone(w, b)
    ensures Gone(w', b)
  {
  }

  lemma OthersFrame(w: World, w': World, p: ProcessId)
    requires ProcsOk(w, None) && OnlyTouches(w, w', p)
    requires w'.journal == w.journal || (w'.journal.Missing? && forall q :: q in w.procs && q != p ==>
                                           w.procs[q].core.extensionLease.None?)
    ensures forall q :: q in w'.procs && q != p ==> ProcOk(w', q, None)
  {
    forall q | q in w'.procs && q != p ensures ProcOk(w', q, None) {
      assert ProcOk(w, q, None);
      forall b | Gone(w, b) ensures Gone(w', b) {
        GoneFrame(w, w', p, b);
      }
      hide Gone, PcOk, StrayOk, MarkOk, CleanupSound;
      ProcFrame(w, w', q, None);
    }
  }

  lemma GotoSelf(w: World, p: ProcessId, pc: Pc)
    requires Inv(w, None) && p in w.procs && !w.procs[p].pc.BindLeased? && !pc.BindLeased?
    requires PcOk(Goto(w, p, pc), p, Goto(w, p, pc).procs[p])
    ensures ProcOk(Goto(w, p, pc), p, None)
  {
    hide PcOk, CleanupSound;
    assert ProcOk(w, p, None);
    assert OnlyTouches(w, Goto(w, p, pc), p);
    if Gone(w, w.procs[p].core.session.attempt) {
      GoneFrame(w, Goto(w, p, pc), p, w.procs[p].core.session.attempt);
    }
  }

  /** Moving the program counter alone. */
  lemma GotoInv(w: World, p: ProcessId, pc: Pc)
    requires Inv(w, None) && p in w.procs && !w.procs[p].pc.BindLeased? && !pc.BindLeased?
    requires PcOk(Goto(w, p, pc), p, Goto(w, p, pc).procs[p])
    ensures Inv(Goto(w, p, pc), None)
  {
    hide ProcOk, PcOk, LaneOk, OwnerOk, TaskOk;
    var w' := Goto(w, p, pc);
    GotoSelf(w, p, pc);
    OthersFrame(w, w', p);
    LanesFrame(w, w');
    OwnersFrame(w, w');
    TasksFrame(w, w');
  }
}
