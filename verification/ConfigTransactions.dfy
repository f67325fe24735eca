/**
 Configuration transactions of lib.rs: optimistic revisions, fallible runtime
 reload and fallible rollback, over the profile store of paws_profile.

 A store write either commits or leaves the store as it was (commit_staged in
 crates/paws_profile/src/lib.rs:413-443), so each of its failures is one flag
 here. How a reload ends, and how its rollback ends, are inputs: a statement
 over all of them covers every failure. All transactions hold config_reload_lock.
 */
module ConfigTransactions {
  import opened Wrappers

  type ProfileId = string

  const MAX_REVISION: nat := 0xFFFF_FFFF_FFFF_FFFF
  const GLOBAL := "GLOBAL"

  /** A profile: its YAML, backup and metadata as one text, and the stored group selections. */
  datatype Doc = Doc(content: string, selections: map<string, string>)

  datatype Store = Store(docs: map<ProfileId, Doc>, rules: string, active: Option<ProfileId>)

  datatype Core = Core(store: Store, revision: nat, engineLoaded: bool)

  /** What a reader of the configuration sees, apart from group selections. */
  datatype Shape = Shape(contents: map<ProfileId, string>, rules: string, active: Option<ProfileId>)

  function ShapeOf(s: Store): Shape {
    Shape(map id | id in s.docs :: s.docs[id].content, s.rules, s.active)
  }

  // ------------------------------------------------------------- reloading

  /** How far reload_config_inner came; `global` is the selection Global mode stored on the way. */
  datatype Reload =
    | Loaded(global: Option<string>)
    | FailedEarly                              // before the store was touched
    | FailedStoring(global: Option<string>)    // GLOBAL selection stored, then a store write failed
    | FailedLate(global: Option<string>)       // everything committed, then the public listener could not stop
  {
    predicate Commits() { Loaded? || FailedLate? }
  }

  function Select(s: Store, id: ProfileId, global: Option<string>): Store
    requires id in s.docs
  {
    if global.None? then s
    else s.(docs := s.docs[id := s.docs[id].(selections := s.docs[id].selections[GLOBAL := global.value])])
  }

  /** The state after a reload of profile id, and whether it reported success. */
  function Reloaded(c: Core, id: ProfileId, r: Reload): (Core, bool) {
    if id !in c.store.docs || r.FailedEarly? then (c, false)
    else
      var s := Select(c.store, id, r.global);
      if r.FailedStoring? then (c.(store := s), false)
      else (c.(store := s.(active := Some(id)), engineLoaded := true), r.Loaded?)
  }

  /** publish_*_locked with config_changed: the revision saturates. */
  function Published(c: Core): Core {
    c.(revision := if c.revision >= MAX_REVISION then c.revision else c.revision + 1)
  }

  // ---------------------------------------------------------- transactions

  datatype Outcome = Committed | Stale | Failed

  /** The fallible parts of a transaction: its own store write, the reload, the undoing write, the reload after it. */
  datatype Script = Script(writes: bool, reload: Reload, undoes: bool, again: Reload)

  /** `expected` is the revision a checked call insists on; only the unchecked profile edits pass none. */
  datatype Op =
    | EditProfile(id: ProfileId, expected: Option<nat>, edited: Doc)
    | EditRules(id: ProfileId, expected: Option<nat>, rules: string)
    | CommitRefresh(id: ProfileId, expected: Option<nat>, edited: Doc)
    | CommitImport(id: ProfileId, expected: Option<nat>, imported: Doc)

  predicate Fresh(c: Core, expected: Option<nat>) {
    expected.None? || c.revision == expected.value
  }

  /** mutate_profile_config. */
  function RunEditProfile(c: Core, op: Op, s: Script): (Core, Outcome)
    requires op.EditProfile?
  {
    if !Fresh(c, op.expected) then (c, Stale)
    else if op.id !in c.store.docs || !s.writes then (c, Failed)
    else
      var checkpoint := c.store.docs[op.id];
      var d := c.(store := c.store.(docs := c.store.docs[op.id := op.edited]));
      if c.store.active != Some(op.id) then (Published(d), Committed)
      else
        var (e, ok) := Reloaded(d, op.id, s.reload);
        if ok then (Published(e), Committed)
        else if !s.undoes then (Published(e), Failed)
        else
          var (f, again) := Reloaded(e.(store := e.store.(docs := e.store.docs[op.id := checkpoint])), op.id, s.again);
          (if again then f else Published(f), Failed)
  }

  /** mutate_profile_store_config. */
  function RunEditRules(c: Core, op: Op, s: Script): (Core, Outcome)
    requires op.EditRules?
  {
    if !Fresh(c, op.expected) then (c, Stale)
    else if op.id !in c.store.docs || !s.writes then (c, Failed)
    else
      var d := c.(store := c.store.(rules := op.rules));
      if c.store.active != Some(op.id) then (Published(d), Committed)
      else
        var (e, ok) := Reloaded(d, op.id, s.reload);
        if ok then (Published(e), Committed)
        else if !s.undoes then (Published(e), Failed)
        else (Reloaded(e.(store := c.store), op.id, s.again).0, Failed)
  }

  /** The runtime part of a rollback: only a previously loaded engine is reloaded, on its previous profile. */
  function BackToPrevious(c: Core, previous: Option<ProfileId>, wasLoaded: bool, r: Reload): (Core, bool) {
    if !wasLoaded then (c, true)
    else if previous.None? then (c, false)
    else Reloaded(c, previous.value, r)
  }

  /** commit_prepared_profile_refresh_and_activate_checked. */
  function RunRefresh(c: Core, op: Op, s: Script): (Core, Outcome)
    requires op.CommitRefresh?
  {
    if !Fresh(c, op.expected) then (c, Stale)
    else if op.id !in c.store.docs || !s.writes then (c, Failed)
    else
      var checkpoint := c.store.docs[op.id];
      var (e, ok) := Reloaded(c.(store := c.store.(docs := c.store.docs[op.id := op.edited])), op.id, s.reload);
      if ok then (Published(e), Committed)
      else if !s.undoes then (Published(e), Failed)
      else
        var restored := e.(store := e.store.(docs := e.store.docs[op.id := checkpoint]));
        var (f, undone) := BackToPrevious(restored, c.store.active, c.engineLoaded, s.again);
        (if undone then f else Published(f), Failed)
  }

  /** commit_prepared_profile_import_and_activate_checked; `op.id` is the freshly made profile id. */
  function RunImport(c: Core, op: Op, s: Script): (Core, Outcome)
    requires op.CommitImport?
  {
    if !Fresh(c, op.expected) then (c, Stale)
    else if !s.writes then (c, Failed)
    else
      var with := c.store.(docs := c.store.docs[op.id := op.imported],
                           active := if c.store.active.None? then Some(op.id) else c.store.active);
      var (e, ok) := Reloaded(c.(store := with), op.id, s.reload);
      if ok then (Published(e), Committed)
      else if !s.undoes || op.id in c.store.docs then (Published(e), Failed)
      else
        var (f, undone) := BackToPrevious(e.(store := c.store), c.store.active, c.engineLoaded, s.again);
        (if undone then f else Published(f), Failed)
  }

  function Run(c: Core, op: Op, s: Script): (Core, Outcome) {
    match op
    case EditProfile(_, _, _) => RunEditProfile(c, op, s)
    case EditRules(_, _, _) => RunEditRules(c, op, s)
    case CommitRefresh(_, _, _) => RunRefresh(c, op, s)
    case CommitImport(_, _, _) => RunImport(c, op, s)
  }

  // ------------------------------------------------- the revision is a token

  lemma SelectKeepsShape(s: Store, id: ProfileId, global: Option<string>)
    requires id in s.docs
    ensures ShapeOf(Select(s, id, global)) == ShapeOf(s) && Select(s, id, global).docs.Keys == s.docs.Keys
  {
  }

  /** A reload changes contents and rules of no profile; it can change the active one. */
  lemma ReloadShape(c: Core, id: ProfileId, r: Reload)
    ensures var d := Reloaded(c, id, r).0;
            && d.revision == c.revision && d.store.docs.Keys == c.store.docs.Keys
            && ShapeOf(d.store) == ShapeOf(c.store).(active := d.store.active)
            && d.store.active == (if id in c.store.docs && r.Commits() then Some(id) else c.store.active)
  {
    if id in c.store.docs && !r.FailedEarly? {
      SelectKeepsShape(c.store, id, r.global);
    }
  }

  /** Putting the old document back restores the old contents. */
  lemma UndoShape(before: Store, after: Store, id: ProfileId, edited: Doc)
    requires id in before.docs && id in after.docs
    requires ShapeOf(after) == ShapeOf(before.(docs := before.docs[id := edited])).(active := after.active)
    ensures ShapeOf(after.(docs := after.docs[id := before.docs[id]])) == ShapeOf(before).(active := after.active)
  {
    var edit := before.(docs := before.docs[id := edited]);
    var undone := after.(docs := after.docs[id := before.docs[id]]);
    assert ShapeOf(after).contents.Keys == after.docs.Keys && ShapeOf(edit).contents.Keys == edit.docs.Keys;
    assert ShapeOf(undone).contents.Keys == ShapeOf(before).contents.Keys;
    forall x | x in before.docs ensures ShapeOf(undone).contents[x] == ShapeOf(before).contents[x] {
      if x != id {
        assert ShapeOf(after).contents[x] == ShapeOf(edit).contents[x];
      }
    }
    assert ShapeOf(undone).contents == ShapeOf(before).contents;
  }

  lemma EditProfileKeepsToken(c: Core, op: Op, s: Script)
    requires op.EditProfile? && c.revision < MAX_REVISION
    requires RunEditProfile(c, op, s).0.revision == c.revision
    ensures ShapeOf(RunEditProfile(c, op, s).0.store) == ShapeOf(c.store)
  {
    if Fresh(c, op.expected) && op.id in c.store.docs && s.writes {
      var d := c.(store := c.store.(docs := c.store.docs[op.id := op.edited]));
      ReloadShape(d, op.id, s.reload);
      var e := Reloaded(d, op.id, s.reload).0;
      UndoShape(c.store, e.store, op.id, op.edited);
      ReloadShape(e.(store := e.store.(docs := e.store.docs[op.id := c.store.docs[op.id]])), op.id, s.again);
    }
  }

  lemma EditRulesKeepsToken(c: Core, op: Op, s: Script)
    requires op.EditRules? && c.revision < MAX_REVISION
    requires RunEditRules(c, op, s).0.revision == c.revision
    ensures ShapeOf(RunEditRules(c, op, s).0.store) == ShapeOf(c.store)
  {
    if Fresh(c, op.expected) && op.id in c.store.docs && s.writes {
      var d := c.(store := c.store.(rules := op.rules));
      ReloadShape(d, op.id, s.reload);
      var e := Reloaded(d, op.id, s.reload).0;
      ReloadShape(e.(store := c.store), op.id, s.again);
    }
  }

  lemma ImportKeepsToken(c: Core, op: Op, s: Script)
    requires op.CommitImport? && c.revision < MAX_REVISION
    requires RunImport(c, op, s).0.revision == c.revision
    ensures ShapeOf(RunImport(c, op, s).0.store) == ShapeOf(c.store)
  {
    if Fresh(c, op.expected) && s.writes {
      var with := c.store.(docs := c.store.docs[op.id := op.imported],
                           active := if c.store.active.None? then Some(op.id) else c.store.active);
      ReloadShape(c.(store := with), op.id, s.reload);
      var e := Reloaded(c.(store := with), op.id, s.reload).0;
      if c.store.active.Some? {
        ReloadShape(e.(store := c.store), c.store.active.value, s.again);
      }
    }
  }

  /**
   The one leak: a refresh of a profile that was not active, without a loaded
   engine, whose reload activated the profile before it failed. The rollback
   restores the document only and reports success.
   */
  predicate LeaksActivation(c: Core, op: Op, s: Script) {
    && op.CommitRefresh? && Fresh(c, op.expected) && op.id in c.store.docs && s.writes
    && s.reload.FailedLate? && s.undoes && !c.engineLoaded && c.store.active != Some(op.id)
  }

  lemma RefreshKeepsToken(c: Core, op: Op, s: Script)
    requires op.CommitRefresh? && c.revision < MAX_REVISION
    requires RunRefresh(c, op, s).0.revision == c.revision
    ensures ShapeOf(RunRefresh(c, op, s).0.store) == ShapeOf(c.store) <==> !LeaksActivation(c, op, s)
  {
    if Fresh(c, op.expected) && op.id in c.store.docs && s.writes {
      var d := c.(store := c.store.(docs := c.store.docs[op.id := op.edited]));
      ReloadShape(d, op.id, s.reload);
      var e := Reloaded(d, op.id, s.reload).0;
      UndoShape(c.store, e.store, op.id, op.edited);
      var restored := e.(store := e.store.(docs := e.store.docs[op.id := c.store.docs[op.id]]));
      if c.store.active.Some? {
        ReloadShape(restored, c.store.active.value, s.again);
      }
    }
  }

  /**
   An unchanged revision means unchanged profile contents, rules and active
   profile, exactly unless the transaction leaks an activation.
   */
  lemma RevisionIsATokenIff(c: Core, op: Op, s: Script)
    requires c.revision < MAX_REVISION && Run(c, op, s).0.revision == c.revision
    ensures ShapeOf(Run(c, op, s).0.store) == ShapeOf(c.store) <==> !LeaksActivation(c, op, s)
  {
    match op
    case EditProfile(_, _, _) => EditProfileKeepsToken(c, op, s);
    case EditRules(_, _, _) => EditRulesKeepsToken(c, op, s);
    case CommitRefresh(_, _, _) => RefreshKeepsToken(c, op, s);
    case CommitImport(_, _, _) => ImportKeepsToken(c, op, s);
  }

  /** What a caller can see beforehand of a leak. */
  predicate CanLeakActivation(c: Core, op: Op) {
    op.CommitRefresh? && Fresh(c, op.expected) && op.id in c.store.docs && !c.engineLoaded && c.store.active != Some(op.id)
  }

  /** The revision is a token however reload and undo end, exactly when the caller cannot see a possible leak. */
  lemma TokenWhateverFailsIff(c: Core, op: Op)
    requires c.revision < MAX_REVISION
    ensures (forall s: Script :: Run(c, op, s).0.revision == c.revision ==> ShapeOf(Run(c, op, s).0.store) == ShapeOf(c.store))
            <==> !CanLeakActivation(c, op)
  {
    hide ShapeOf;
    forall s: Script | Run(c, op, s).0.revision == c.revision
      ensures ShapeOf(Run(c, op, s).0.store) == ShapeOf(c.store) <==> !LeaksActivation(c, op, s)
    {
      hide Run, LeaksActivation;
      RevisionIsATokenIff(c, op, s);
    }
    if CanLeakActivation(c, op) {
      var s := Script(true, FailedLate(None), true, FailedEarly);
      assert LeaksActivation(c, op, s) && Run(c, op, s).0.revision == c.revision;
    }
  }

  /** The leak as a run: revision 7 before and after, but another profile is active. */
  lemma RefreshCanLeakActivation()
    ensures var c := Core(Store(map["a" := Doc("x", map[]), "b" := Doc("y", map[])], "", Some("a")), 7, false);
            var r := Run(c, CommitRefresh("b", Some(7), Doc("z", map[])), Script(true, FailedLate(None), true, FailedEarly));
            r.1 == Failed && r.0.revision == 7 && r.0.store.active == Some("b")
  {
  }

  // --------------------------------------------------------------- over runs

  /** cores[i+1] and outcomes[i] result from ops[i] on cores[i]. */
  ghost predicate IsRun(cores: seq<Core>, ops: seq<Op>, scripts: seq<Script>, outcomes: seq<Outcome>) {
    && |cores| == |ops| + 1 && |scripts| == |ops| == |outcomes|
    && forall i :: 0 <= i < |ops| ==> Run(cores[i], ops[i], scripts[i]) == (cores[i + 1], outcomes[i])
  }

  lemma RevisionGrows(c: Core, op: Op, s: Script)
    ensures Run(c, op, s).0.revision == c.revision || Run(c, op, s).0.revision == Published(c).revision
    ensures Run(c, op, s).1.Committed? ==> Run(c, op, s).0.revision == Published(c).revision
  {
    match op
    case EditProfile(_, _, _) =>
    case EditRules(_, _, _) =>
    case CommitRefresh(_, _, _) =>
    case CommitImport(_, _, _) =>
  }

  lemma {:induction false} RevisionsAreMonotone(
    cores: seq<Core>, ops: seq<Op>, scripts: seq<Script>, outcomes: seq<Outcome>, i: nat, j: nat
  )
    requires IsRun(cores, ops, scripts, outcomes) && i <= j < |cores|
    ensures cores[i].revision <= cores[j].revision
    decreases j
  {
    hide Run;
    if i < j {
      RevisionsAreMonotone(cores, ops, scripts, outcomes, i, j - 1);
      RevisionGrows(cores[j - 1], ops[j - 1], scripts[j - 1]);
    }
  }

  /** Two readings with the same revision, however many transactions apart, saw the same configuration. */
  lemma {:induction false} SameRevisionSameConfiguration(
    cores: seq<Core>, ops: seq<Op>, scripts: seq<Script>, outcomes: seq<Outcome>, i: nat, j: nat
  )
    requires IsRun(cores, ops, scripts, outcomes) && i <= j < |cores|
    requires cores[i].revision == cores[j].revision < MAX_REVISION
    requires forall k :: i <= k < j ==> !LeaksActivation(cores[k], ops[k], scripts[k])
    ensures ShapeOf(cores[i].store) == ShapeOf(cores[j].store)
    decreases j
  {
    hide Run;
    if i < j {
      RevisionsAreMonotone(cores, ops, scripts, outcomes, i, j - 1);
      RevisionsAreMonotone(cores, ops, scripts, outcomes, j - 1, j);
      SameRevisionSameConfiguration(cores, ops, scripts, outcomes, i, j - 1);
      RevisionIsATokenIff(cores[j - 1], ops[j - 1], scripts[j - 1]);
    }
  }

  lemma CommittedWasFresh(c: Core, op: Op, s: Script)
    requires Run(c, op, s).1.Committed? && op.expected.Some?
    ensures c.revision == op.expected.value
  {
  }

  /** Of any two edits checked against the same revision, at most one commits. */
  lemma AtMostOneCommits(
    cores: seq<Core>, ops: seq<Op>, scripts: seq<Script>, outcomes: seq<Outcome>, i: nat, j: nat
  )
    requires IsRun(cores, ops, scripts, outcomes) && i < j < |ops|
    requires ops[i].expected.Some? && ops[i].expected == ops[j].expected && ops[i].expected.value < MAX_REVISION
    ensures !(outcomes[i].Committed? && outcomes[j].Committed?)
  {
    hide Run;
    if outcomes[i].Committed? && outcomes[j].Committed? {
      assert Run(cores[i], ops[i], scripts[i]) == (cores[i + 1], outcomes[i]);
      assert Run(cores[j], ops[j], scripts[j]) == (cores[j + 1], outcomes[j]);
      CommittedWasFresh(cores[i], ops[i], scripts[i]);
      CommittedWasFresh(cores[j], ops[j], scripts[j]);
      RevisionGrows(cores[i], ops[i], scripts[i]);
      RevisionsAreMonotone(cores, ops, scripts, outcomes, i + 1, j);
    }
  }

  /** At the saturated revision both commit. */
  lemma SaturatedRevisionLosesTheCheck(c: Core, id: ProfileId, x: Doc, y: Doc, s: Script)
    requires c.revision == MAX_REVISION && id in c.store.docs && c.store.active != Some(id) && s.writes
    ensures var first := Run(c, EditProfile(id, Some(MAX_REVISION), x), s);
            first.1.Committed? && Run(first.0, EditProfile(id, Some(MAX_REVISION), y), s).1.Committed?
  {
  }

  /** What a failed transaction may leave behind in the selections: at most GLOBAL entries. */
  ghost predicate OnlyGlobalDiffers(before: Store, after: Store) {
    && before.docs.Keys == after.docs.Keys
    && forall id, g :: id in before.docs && g != GLOBAL ==>
         (g in before.docs[id].selections <==> g in after.docs[id].selections)
         && (g in before.docs[id].selections ==> before.docs[id].selections[g] == after.docs[id].selections[g])
  }

  lemma ReloadSelections(c: Core, id: ProfileId, r: Reload)
    ensures OnlyGlobalDiffers(c.store, Reloaded(c, id, r).0.store)
  {
  }

  lemma UndoSelections(before: Store, after: Store, id: ProfileId, edited: Doc)
    requires id in before.docs && OnlyGlobalDiffers(before.(docs := before.docs[id := edited]), after)
    ensures OnlyGlobalDiffers(before, after.(docs := after.docs[id := before.docs[id]]))
  {
  }

  lemma ThenSelections(a: Store, b: Store, c: Store)
    requires OnlyGlobalDiffers(a, b) && OnlyGlobalDiffers(b, c)
    ensures OnlyGlobalDiffers(a, c)
  {
  }

  /** A rollback to the old document, and whatever reload follows it. */
  lemma RolledBackSelections(c: Core, id: ProfileId, edited: Doc, first: Reload, previous: ProfileId, again: Reload)
    requires id in c.store.docs
    ensures var e := Reloaded(c.(store := c.store.(docs := c.store.docs[id := edited])), id, first).0;
            var restored := e.(store := e.store.(docs := e.store.docs[id := c.store.docs[id]]));
            && OnlyGlobalDiffers(c.store, restored.store)
            && OnlyGlobalDiffers(c.store, Reloaded(restored, previous, again).0.store)
  {
    hide Reloaded, OnlyGlobalDiffers;
    var d := c.(store := c.store.(docs := c.store.docs[id := edited]));
    ReloadSelections(d, id, first);
    var e := Reloaded(d, id, first).0;
    UndoSelections(c.store, e.store, id, edited);
    var restored := e.(store := e.store.(docs := e.store.docs[id := c.store.docs[id]]));
    ReloadSelections(restored, previous, again);
    ThenSelections(c.store, restored.store, Reloaded(restored, previous, again).0.store);
  }

  lemma SameSelections(s: Store)
    ensures OnlyGlobalDiffers(s, s)
  {
  }

  lemma RolledBackStore(c: Core, e: Core, previous: ProfileId, again: Reload)
    ensures OnlyGlobalDiffers(c.store, Reloaded(e.(store := c.store), previous, again).0.store)
  {
    ReloadSelections(e.(store := c.store), previous, again);
  }

  /** A transaction that keeps the revision changes no stored selection except GLOBAL's. */
  lemma TokenCoversSelectionsButGlobal(c: Core, op: Op, s: Script)
    requires c.revision < MAX_REVISION && Run(c, op, s).0.revision == c.revision
    ensures OnlyGlobalDiffers(c.store, Run(c, op, s).0.store)
  {
    SameSelections(c.store);
    match op
    case EditProfile(id, _, edited) =>
      hide OnlyGlobalDiffers;
      if id in c.store.docs {
        RolledBackSelections(c, id, edited, s.reload, id, s.again);
      }
      ReloadRevision(c.(store := c.store.(docs := c.store.docs[id := edited])), id, s.reload);
    case EditRules(id, _, rules) =>
      hide OnlyGlobalDiffers;
      var d := c.(store := c.store.(rules := rules));
      ReloadRevision(d, id, s.reload);
      RolledBackStore(c, Reloaded(d, id, s.reload).0, id, s.again);
    case CommitRefresh(id, _, edited) =>
      hide OnlyGlobalDiffers;
      if id in c.store.docs {
        RolledBackSelections(c, id, edited, s.reload, c.store.active.GetOr(id), s.again);
      }
      ReloadRevision(c.(store := c.store.(docs := c.store.docs[id := edited])), id, s.reload);
    case CommitImport(id, _, imported) =>
      hide OnlyGlobalDiffers;
      var with := c.store.(docs := c.store.docs[id := imported],
                           active := if c.store.active.None? then Some(id) else c.store.active);
      ReloadRevision(c.(store := with), id, s.reload);
      RolledBackStore(c, Reloaded(c.(store := with), id, s.reload).0, c.store.active.GetOr(id), s.again);
  }

  lemma ReloadRevision(c: Core, id: ProfileId, r: Reload)
    ensures Reloaded(c, id, r).0.revision == c.revision
  {
  }

  // ---------------------------------------------------------------- the methods

  class ConfigCore {
    var store: Store
    var revision: nat
    var engineLoaded: bool

    function View(): Core
      reads this
    {
      Core(store, revision, engineLoaded)
    }

    constructor (s: Store, loaded: bool)
      ensures View() == Core(s, 0, loaded)
    {
      store, revision, engineLoaded := s, 0, loaded;
    }

    method PublishConfigChange()
      modifies this`revision
      ensures View() == Published(old(View()))
    {
      if revision < MAX_REVISION {
        revision := revision + 1;
      }
    }

    /** reload_config_inner. */
    method ReloadConfig(id: ProfileId, r: Reload) returns (ok: bool)
      modifies this`store, this`engineLoaded
      ensures (View(), ok) == Reloaded(old(View()), id, r)
    {
      if id !in store.docs || r.FailedEarly? {
        return false;
      }
      if r.global.Some? {
        var doc := store.docs[id];
        store := store.(docs := store.docs[id := doc.(selections := doc.selections[GLOBAL := r.global.value])]);
      }
      if r.FailedStoring? {
        return false;
      }
      store := store.(active := Some(id));
      engineLoaded := true;
      return r.Loaded?;
    }

    method RestoreCheckpoint(id: ProfileId, checkpoint: Doc)
      modifies this`store
      ensures store == old(store).(docs := old(store).docs[id := checkpoint])
    {
      store := store.(docs := store.docs[id := checkpoint]);
    }

    /** mutate_profile_config with rollback_profile_after_failure. */
    method MutateProfileConfig(op: Op, s: Script) returns (r: Outcome)
      requires op.EditProfile?
      modifies this
      ensures (View(), r) == Run(old(View()), op, s)
    {
      if op.expected.Some? && revision != op.expected.value {
        return Stale;
      }
      if op.id !in store.docs || !s.writes {
        return Failed;
      }
      var checkpoint := store.docs[op.id];
      store := store.(docs := store.docs[op.id := op.edited]);
      if store.active == Some(op.id) {
        var loaded := ReloadConfig(op.id, s.reload);
        if !loaded {
          var undone := s.undoes;
          if undone {
            RestoreCheckpoint(op.id, checkpoint);
            undone := ReloadConfig(op.id, s.again);
          }
          if !undone {
            PublishConfigChange();
          }
          return Failed;
        }
      }
      PublishConfigChange();
      return Committed;
    }

    /** mutate_profile_store_config. */
    method MutateProfileStoreConfig(op: Op, s: Script) returns (r: Outcome)
      requires op.EditRules?
      modifies this
      ensures (View(), r) == Run(old(View()), op, s)
    {
      if op.expected.Some? && revision != op.expected.value {
        return Stale;
      }
      if op.id !in store.docs || !s.writes {
        return Failed;
      }
      var previous := store;
      store := store.(rules := op.rules);
      if store.active == Some(op.id) {
        var loaded := ReloadConfig(op.id, s.reload);
        if !loaded {
          if !s.undoes {
            PublishConfigChange();
            return Failed;
          }
          store := previous;
          var _ := ReloadConfig(op.id, s.again);
          return Failed;
        }
      }
      PublishConfigChange();
      return Committed;
    }

    method ReloadPrevious(previous: Option<ProfileId>, wasLoaded: bool, r: Reload) returns (ok: bool)
      modifies this`store, this`engineLoaded
      ensures (View(), ok) == BackToPrevious(old(View()), previous, wasLoaded, r)
    {
      if !wasLoaded {
        return true;
      }
      if previous.None? {
        return false;
      }
      ok := ReloadConfig(previous.value, r);
    }

    /** commit_prepared_profile_refresh_and_activate_checked. */
    method CommitPreparedRefresh(op: Op, s: Script) returns (r: Outcome)
      requires op.CommitRefresh?
      modifies this
      ensures (View(), r) == Run(old(View()), op, s)
    {
      if op.expected.Some? && revision != op.expected.value {
        return Stale;
      }
      if op.id !in store.docs || !s.writes {
        return Failed;
      }
      var checkpoint, previousActive, wasLoaded := store.docs[op.id], store.active, engineLoaded;
      store := store.(docs := store.docs[op.id := op.edited]);
      var loaded := ReloadConfig(op.id, s.reload);
      if !loaded {
        var undone := s.undoes;
        if undone {
          RestoreCheckpoint(op.id, checkpoint);
          undone := ReloadPrevious(previousActive, wasLoaded, s.again);
        }
        if !undone {
          PublishConfigChange();
        }
        return Failed;
      }
      PublishConfigChange();
      return Committed;
    }

    /** commit_prepared_profile_import_and_activate_checked. */
    method CommitPreparedImport(op: Op, s: Script) returns (r: Outcome)
      requires op.CommitImport?
      modifies this
      ensures (View(), r) == Run(old(View()), op, s)
    {
      if op.expected.Some? && revision != op.expected.value {
        return Stale;
      }
      if !s.writes {
        return Failed;
      }
      var previous, wasLoaded := store, engineLoaded;
      store := store.(docs := store.docs[op.id := op.imported],
                      active := if store.active.None? then Some(op.id) else store.active);
      var loaded := ReloadConfig(op.id, s.reload);
      if !loaded {
        var undone := s.undoes && op.id !in previous.docs;
        if undone {
          store := previous;
          undone := ReloadPrevious(previous.active, wasLoaded, s.again);
        }
        if !undone {
          PublishConfigChange();
        }
        return Failed;
      }
      PublishConfigChange();
      return Committed;
    }
  }
}
