/**
 What a configuration transaction leaves, said of the store before and after it:
 when it commits, what then stands, and what a failed one undoes.
 */
module ConfigLaws {
  import opened Wrappers
  import opened ConfigTransactions

  /** One document is the other but for the stored GLOBAL selection. */
  predicate SameButGlobal(a: Doc, b: Doc) {
    a.content == b.content && a.selections - {"GLOBAL"} == b.selections - {"GLOBAL"}
  }

  predicate Stands(s: Store, id: ProfileId, doc: Doc) { id in s.docs && SameButGlobal(s.docs[id], doc) }

  /** No profile but id was added, removed or changed. */
  ghost predicate OthersKept(a: Store, b: Store, id: ProfileId) {
    forall x :: x != id ==> (x in a.docs <==> x in b.docs) && (x in a.docs ==> a.docs[x] == b.docs[x])
  }

  /** The GLOBAL selection that a reload stores with a profile. */
  predicate StoresGlobal(s: Store, id: ProfileId, global: Option<string>) {
    global.Some? ==> id in s.docs && "GLOBAL" in s.docs[id].selections && s.docs[id].selections["GLOBAL"] == global.value
  }

  /**
   A reload succeeds exactly for a stored profile when nothing fails on the way; one
   that came as far as committing has activated it and loaded the engine. It touches
   no more than that profile's GLOBAL selection.
   */
  lemma ReloadLaw(c: Core, id: ProfileId, r: Reload)
    ensures var (d, ok) := Reloaded(c, id, r);
            var commits := id in c.store.docs && (r.Loaded? || r.FailedLate?);
            && (ok <==> id in c.store.docs && r.Loaded?)
            && d.revision == c.revision && d.store.rules == c.store.rules
            && d.store.active == (if commits then Some(id) else c.store.active)
            && d.engineLoaded == (c.engineLoaded || commits)
            && OthersKept(c.store, d.store, id) && (id in c.store.docs ==> Stands(d.store, id, c.store.docs[id]))
            && (id !in c.store.docs || r.FailedEarly? ==> d == c)
            && (id in c.store.docs && !r.FailedEarly? ==> StoresGlobal(d.store, id, r.global))
  {
  }

  predicate IsStale(c: Core, op: Op) { op.expected.Some? && op.expected.value != c.revision }

  /** The call is current and, unless it brings the profile itself, names a stored one; and its own write succeeds. */
  predicate Goes(c: Core, op: Op, s: Script) {
    !IsStale(c, op) && (op.CommitImport? || op.id in c.store.docs) && s.writes
  }

  /** It reloads: a refresh and an import always, an edit when its profile is active. */
  predicate Reloads(c: Core, op: Op) { op.CommitRefresh? || op.CommitImport? || c.store.active == Some(op.id) }

  predicate NextRevision(c: Core, d: Core) {
    d.revision == if c.revision >= 0xFFFF_FFFF_FFFF_FFFF then c.revision else c.revision + 1
  }

  /** The new contents, in place of the old. */
  ghost predicate Edited(c: Core, op: Op, d: Core) {
    && OthersKept(c.store, d.store, op.id)
    && match op
       case EditProfile(id, _, edited) => Stands(d.store, id, edited) && d.store.rules == c.store.rules
       case EditRules(id, _, rules) => id in c.store.docs && Stands(d.store, id, c.store.docs[id]) && d.store.rules == rules
       case CommitRefresh(id, _, edited) => Stands(d.store, id, edited) && d.store.rules == c.store.rules
       case CommitImport(id, _, imported) => Stands(d.store, id, imported) && d.store.rules == c.store.rules
  }

  /**
   A transaction commits exactly when it is current, its write succeeds and the
   reload it needs does; then the revision is the next, the new contents stand and
   nothing else changed, and a refreshed or imported profile is active and loaded.
   */
  lemma CommitLaw(c: Core, op: Op, s: Script)
    ensures var (d, r) := Run(c, op, s);
            && (r == Stale <==> IsStale(c, op)) && (r == Stale ==> d == c)
            && (r == Committed <==> Goes(c, op, s) && (Reloads(c, op) ==> s.reload.Loaded?))
            && (r == Committed ==>
                  && NextRevision(c, d) && Edited(c, op, d)
                  && d.store.active == (if Reloads(c, op) then Some(op.id) else c.store.active)
                  && d.engineLoaded == (c.engineLoaded || Reloads(c, op))
                  && (Reloads(c, op) ==> StoresGlobal(d.store, op.id, s.reload.global))
                  && (!Reloads(c, op) && op.EditProfile? ==> d.store.docs[op.id] == op.edited))
  {
    hide Reloaded, OthersKept;
    if Goes(c, op, s) {
      var d := Written(c, op);
      ReloadLaw(d, op.id, s.reload);
      KeepsOthers(c, op);
      OthersKeptTwice(c.store, d.store, Reloaded(d, op.id, s.reload).0.store, op.id);
    }
  }

  /** The core after the transaction's own write. */
  function Written(c: Core, op: Op): Core {
    c.(store := match op
                case EditProfile(id, _, edited) => c.store.(docs := c.store.docs[id := edited])
                case EditRules(_, _, rules) => c.store.(rules := rules)
                case CommitRefresh(id, _, edited) => c.store.(docs := c.store.docs[id := edited])
                case CommitImport(id, _, imported) =>
                  c.store.(docs := c.store.docs[id := imported],
                           active := if c.store.active.None? then Some(id) else c.store.active))
  }

  lemma KeepsOthers(c: Core, op: Op)
    ensures OthersKept(c.store, Written(c, op).store, op.id)
  {
  }

  lemma OthersKeptTwice(a: Store, b: Store, c: Store, id: ProfileId)
    requires OthersKept(a, b, id) && OthersKept(b, c, id)
    ensures OthersKept(a, c, id)
  {
  }

  /** The undoing write succeeds; an import is only undone if its profile is new. */
  predicate Undoes(c: Core, op: Op, s: Script) { s.undoes && (op.CommitImport? ==> op.id !in c.store.docs) }

  /** The profile that was loaded before is loaded again. */
  predicate PreviousLoads(c: Core, s: Script) {
    !c.engineLoaded || (c.store.active.Some? && c.store.active.value in c.store.docs && s.again.Loaded?)
  }

  /** The runtime is back where it was, as far as the transaction can tell. */
  predicate RuntimeBack(c: Core, op: Op, s: Script) {
    match op
    case EditProfile(_, _, _) => s.again.Loaded?
    case EditRules(_, _, _) => true
    case _ => PreviousLoads(c, s)
  }

  /** Every profile's contents and selections but GLOBAL's, and the rules, are as before. */
  ghost predicate ContentsBack(a: Store, b: Store) {
    && a.rules == b.rules && a.docs.Keys == b.docs.Keys
    && forall x :: x in a.docs ==> SameButGlobal(b.docs[x], a.docs[x])
  }

  /**
   A transaction that fails before its reload changes nothing. One whose reload
   fails undoes its contents if the undoing write succeeds, and keeps the revision
   exactly if then the runtime is back too; otherwise its contents stand under the
   next revision.
   */
  lemma FailureLaw(c: Core, op: Op, s: Script)
    requires Run(c, op, s).1 == Failed
    ensures var d := Run(c, op, s).0;
            if !Goes(c, op, s) then d == c
            else
              && Reloads(c, op) && !s.reload.Loaded?
              && if Undoes(c, op, s) then
                   ContentsBack(c.store, d.store) && if RuntimeBack(c, op, s) then d.revision == c.revision
                       else NextRevision(c, d)
                 else NextRevision(c, d) && Edited(c, op, d)
  {
    CommitLaw(c, op, s);
    hide OthersKept;
    if Goes(c, op, s) {
      var d := Written(c, op);
      ReloadLaw(d, op.id, s.reload);
      KeepsOthers(c, op);
      var e := Reloaded(d, op.id, s.reload).0;
      OthersKeptTwice(c.store, d.store, e.store, op.id);
      if Undoes(c, op, s) {
        var back := Restored(c, op, e);
        RestoredIsBack(c, op, e);
        var id := if op.CommitRefresh? || op.CommitImport? then c.store.active.GetOr(op.id) else op.id;
        ReloadLaw(back, id, s.again);
        BackTwice(c.store, back.store, Reloaded(back, id, s.again).0.store, id);
      }
    }
    hide Reloaded, Edited, ContentsBack;
  }

  /** The core after the undoing write. */
  function Restored(c: Core, op: Op, e: Core): Core {
    match op
    case EditProfile(id, _, _) => if id in c.store.docs then e.(store := e.store.(docs := e.store.docs[id := c.store.docs[id]]))
      else e
    case CommitRefresh(id, _, _) => if id in c.store.docs
      then e.(store := e.store.(docs := e.store.docs[id := c.store.docs[id]])) else e
    case _ => e.(store := c.store)
  }

  lemma RestoredIsBack(c: Core, op: Op, e: Core)
    requires OthersKept(c.store, e.store, op.id) && op.id in e.store.docs && (op.CommitImport? || op.id in c.store.docs)
    requires e.store.rules == c.store.rules || op.EditRules?
    ensures ContentsBack(c.store, Restored(c, op, e).store)
  {
  }

  lemma BackTwice(a: Store, b: Store, c: Store, id: ProfileId)
    requires ContentsBack(a, b) && OthersKept(b, c, id) && b.rules == c.rules
    requires (id in b.docs ==> Stands(c, id, b.docs[id])) && (id !in b.docs ==> c == b)
    ensures ContentsBack(a, c)
  {
  }

  /** Which profile a failed transaction leaves active: undone, only a refresh can change it. */
  lemma ActiveAfterFailure(c: Core, op: Op, s: Script)
    requires Run(c, op, s).1 == Failed && Goes(c, op, s)
    ensures var (active, previous) := (Run(c, op, s).0.store.active, c.store.active);
            if Undoes(c, op, s) then
              active == if op.CommitRefresh? && s.reload.FailedLate?
                           && !(c.engineLoaded && previous.Some? && previous.value in c.store.docs
                                && (s.again.Loaded? || s.again.FailedLate?))
                        then Some(op.id) else previous
            else
              active == if s.reload.FailedLate? || (op.CommitImport? && previous.None?) then Some(op.id) else previous
  {
  }
}
