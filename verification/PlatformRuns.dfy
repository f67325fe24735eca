/**
 The methods that touch the shared store more than once, as functions of the
 core, of the store and of what is observed. PlatformCore is proved against
 them, and OwnershipMethods shows that they are the uninterrupted runs of
 OwnershipWorld.
 */
module PlatformRuns {
  import opened Wrappers
  import opened OwnerJournal
  import opened PlatformState

  /** The journal file and the two lease inodes. */
  datatype Shared = Shared(journal: Journal, issuer: Lease, extension: Lease)

  /** What a method leaves: the core, the frames it published, the store, and what it returns. */
  datatype Run<+R> = Run(core: Core, published: seq<Frame>, shared: Shared, result: R)

  datatype BindError = Stale | AlreadyTerminal | NoJournal | IssuerGone | StillOwned | LeaseBusy

  datatype StopClaim = ClaimError | NothingToStop | Claimed(attempt: AttemptId)

  /** Effect `f`, made on the core that `e` left. */
  function Then(e: Eff, f: Eff): Eff { Eff(f.core, e.published + f.published) }

  /** The leases that process `self` still holds after its core went from `before` to `after`. */
  function Kept(s: Shared, self: ProcessId, before: Core, after: Core): Shared {
    s.(issuer := Unlock(s.issuer, self, before.issuerLease, after.issuerLease),
       extension := Unlock(s.extension, self, before.extensionLease, after.extensionLease))
  }

  /** What must have held for process `self` to end up owning `a`. */
  predicate Taken(s: Shared, a: AttemptId, self: ProcessId) {
    && s.journal.Present? && s.journal.owner.attempt == a && !s.journal.owner.phase.Stopping?
    && (s.journal.owner.phase.Pending? ==>
          Observe(s.issuer, LeaseRecord(a, s.journal.owner.issuer)).HeldExact? && s.extension.holder.None?)
    && (s.journal.owner.phase.Attached? && s.journal.owner.extension != Some(self) ==> s.extension.holder.None?)
  }

  /** Receiving a frame acquires no lease. */
  predicate DropsOnly(before: Core, after: Core) {
    && (after.issuerLease == before.issuerLease || after.issuerLease.None?)
    && (after.extensionLease == before.extensionLease || after.extensionLease.None?)
  }

  /** What receiving a frame can do: adopt the attempt that the Want names, and no other. */
  lemma ApplyAdopts(c: Core, env: Env, expected: Option<AttemptId>, f: Frame)
    ensures var e := Apply(c, env, expected, f);
            && (e.core.session.attempt != c.session.attempt ==>
                  !env.isUi && expected == Some(e.core.session.attempt) && e.core.session.attempt == f.session.attempt)
            && (!Matches(c.session, f.session) && (env.isUi || expected != Some(f.session.attempt)) ==> e == Quiet(c))
            && DropsOnly(c, e.core)
  {
    hide Watchdog;
  }

  /** It revives nothing, and what it publishes is a failure. */
  lemma ApplyRevivesNothing(c: Core, env: Env, expected: Option<AttemptId>, f: Frame)
    ensures var e := Apply(c, env, expected, f);
            && (Terminal(c.session.outcome) && e.core.session.attempt == c.session.attempt ==> Terminal(e.core.session.outcome))
            && (e.published != [] ==> e.core.session.outcome.Failed?)
  {
    hide Watchdog;
  }

  /** Reading the lane keeps the attempt, revives nothing and acquires nothing. */
  lemma SyncFacts(c: Core, env: Env)
    ensures var d := Sync(c, env).core;
            && d.session.attempt == c.session.attempt
            && (Terminal(c.session.outcome) ==> Terminal(d.session.outcome)) && DropsOnly(c, d)
  {
    hide Apply;
    if env.lane.Some? {
      ApplyAdopts(c, env, None, env.lane.value);
      ApplyRevivesNothing(c, env, None, env.lane.value);
    }
  }

  /** What two stretches keep, one after the other, whoever wrote the journal in between. */
  lemma KeptTwice(s: Shared, self: ProcessId, before: Core, between: Core, after: Core, j: Journal)
    requires DropsOnly(before, between) && DropsOnly(between, after)
    ensures Kept(Kept(s, self, before, between).(journal := j), self, between, after) == Kept(s.(journal := j), self, before, after)
    ensures Kept(s, self, before, between).(journal := s.journal) == Kept(s, self, before, between)
  {
  }

  /** begin_platform_vpn_start_for_intent with the freshly minted id `a`. */
  function BeginRun(c: Core, s: Shared, env: Env, epoch: nat, a: AttemptId, self: ProcessId): Run<bool> {
    var (e, pass) := BeginCheck(c, env, epoch);
    var t := Kept(s, self, c, e.core);
    if !pass || t.journal.Present? || t.issuer.holder.Some? then Run(e.core, e.published, t, false)
    else
      var f := BeginCommit(e.core, env, a);
      var owned := t.(journal := Present(Owner(a, self, None, Phase.Pending)),
                      issuer := Lease(Some(self), Some(LeaseRecord(a, self))));
      Run(f.core, e.published + f.published, Kept(owned, self, e.core, f.core), true)
  }

  /** bind_platform_vpn_start from the journal read to the lease in hand. */
  function TakeRun(c: Core, s: Shared, a: AttemptId, self: ProcessId): Run<Result<(), BindError>> {
    var taken := Lease(Some(self), Some(LeaseRecord(a, self)));
    if s.journal.Missing? then Run(c, [], s, Err(NoJournal))
    else if s.journal.owner.attempt != a then Run(c, [], s, Err(Stale))
    else
      var o := s.journal.owner;
      match (o.phase, o.extension)
      case (Pending, None) =>
        if !Observe(s.issuer, LeaseRecord(a, o.issuer)).HeldExact? then Run(c, [], s, Err(IssuerGone))
        else if s.extension.holder.Some? then Run(c, [], s, Err(LeaseBusy))
        else Run(c.(extensionLease := Some(a)), [],
                 s.(journal := Present(o.(phase := Phase.Attached, extension := Some(self))), extension := taken), Ok(()))
      case (Attached, Some(q)) =>
        if q == self && c.extensionLease.Some? then Run(c, [], s, Ok(()))
        else if s.extension.holder.Some? then Run(c, [], s, Err(if q == self then LeaseBusy else StillOwned))
        else Run(c.(extensionLease := Some(a)), [],
                 s.(journal := Present(o.(extension := Some(self))), extension := taken), Ok(()))
      case _ => Run(c, [], s, Err(Stale))
  }

  /** bind_platform_vpn_start. */
  function BindRun(c: Core, s: Shared, env: Env, a: AttemptId, self: ProcessId): Run<Result<(), BindError>> {
    var (e, pass) := BindAdopt(c, env, a);
    var t := Kept(s, self, c, e.core);
    if !pass then Run(e.core, e.published, t, Err(if e.core.session.TerminalFor(a) then AlreadyTerminal else Stale))
    else
      var took := TakeRun(e.core, t, a, self);
      if took.result.Err? then took.(published := e.published)
      else
        var (f, announced) := BindPublish(took.core, env, a, self);
        Run(f.core, e.published + f.published, Kept(took.shared, self, took.core, f.core),
            if announced then Ok(()) else Err(Stale))
  }

  /** complete_platform_vpn_cleanup; Err stands for its error returns. */
  function AckRun(c: Core, s: Shared, env: Env, a: AttemptId, self: ProcessId): Run<Result<bool, ()>> {
    var (e, gate) := CleanupCheck(c, env, a);
    var t := Kept(s, self, c, e.core);
    if gate.Proceed? && CleanupOwner(e.core, t.journal, a, self) then
      var f := CleanupCommit(e.core, env);
      Run(f.core, e.published + f.published, Kept(t.(journal := Missing), self, e.core, f.core), Ok(true))
    else
      Run(e.core, e.published, t,
          match gate
          case Refused => Ok(false)
          case AlreadyDone => Ok(true)
          case LeaseMissing => Err(())
          case Proceed => if t.journal.Present? && t.journal.owner.attempt != a then Ok(false) else Err(()))
  }

  /** fail_platform_vpn_start_if. */
  function FailRun(c: Core, s: Shared, env: Env, a: AttemptId, requireUnattached: bool, self: ProcessId): Run<bool> {
    var (e, pass) := FailCheck(c, env, a, requireUnattached);
    var t := Kept(s, self, c, e.core);
    var (j, deleted) := DeletePendingExact(t.journal, a);
    if !pass || (requireUnattached && !deleted) then Run(e.core, e.published, t, false)
    else
      var f := FailCommit(e.core, env, requireUnattached);
      Run(f.core, e.published + f.published,
          Kept(if requireUnattached then t.(journal := j) else t, self, e.core, f.core), true)
  }

  /** claim_current_platform_vpn_stop; `raced` is the journal when it fences, after any race with a bind. */
  function ClaimRun(c: Core, s: Shared, env: Env, raced: Journal, epoch: nat, self: ProcessId): Run<StopClaim> {
    var (e, pass) := ClaimCheck(c, env, epoch);
    var t := Kept(s, self, c, e.core);
    if !pass then Run(e.core, e.published, t, ClaimError)
    else
      match ClaimDecide(e.core, t.journal)
      case ClaimRefused => Run(e.core, e.published, t, ClaimError)
      case ClaimNothing => Run(e.core, e.published, t, NothingToStop)
      case ClaimRetained(a) => Run(ClaimCommit(e.core, epoch, a), e.published, t, Claimed(a))
      case ClaimCold(o) =>
        var (d, k, claim) := ClaimRace(e.core, raced, epoch, o);
        Run(d, e.published, t.(journal := k), claim)
      case ClaimOwned(o) =>
        var marked := Then(e, ClaimMark(e.core, env));
        var (d, k, claim) := ClaimRace(marked.core, raced, epoch, o);
        Run(d, marked.published, t.(journal := k), claim)
  }

  /** Pending -> Stopping against Pending -> Attached, and the OS-stop fence the claim leaves. */
  function ClaimRace(c: Core, raced: Journal, epoch: nat, o: Owner): (Core, Journal, StopClaim) {
    var won := ClaimCommit(c, epoch, o.attempt);
    match (o.phase, o.extension)
    case (Stopping, None) => (won, raced, Claimed(o.attempt))
    case (Attached, Some(_)) => (won, raced, Claimed(o.attempt))
    case (Pending, None) =>
      var (j, fence) := FencePendingStop(raced, o.attempt, o.issuer);
      if fence.Fenced? || (fence.RaceLost? && ClaimStillOwned(j, o.attempt)) then (won, j, Claimed(o.attempt))
      else (c, j, ClaimError)
    case _ => (c, raced, ClaimError)
  }

  // ---------------------------------- recovery after a confirmed OS stop

  /** One round of the recovery loop: what it observes at each of its store accesses. */
  datatype Round = Round(
    snapshot: Env, atRead: Journal, issuer: Lease, extension: Lease, atDelete: Journal, finish: Env, expired: bool)

  datatype Recovered = RecoveredDone | RecoveredNot | RecoveredError | RecoveredWaiting

  /** One round of the recovery loop, and the journal it leaves; None means another round is due. */
  function RecoverRound(c: Core, j: Journal, r: Round, attempt: AttemptId): (Eff, Journal, Option<Recovered>) {
    var (e, done, unattached) := RecoverySnapshot(c, r.snapshot, attempt);
    if done then (e, j, Some(RecoveredDone))
    else if r.atRead.Missing? then
      var s := Sync(e.core, r.finish);
      (Then(e, s), j, Some(if s.core.session.attempt == attempt && s.core.session.cleanup then RecoveredDone else RecoveredError))
    else if r.atRead.owner.attempt != attempt then (e, j, Some(RecoveredNot))
    else
      match OwnerProof(r.atRead.owner, r.issuer, r.extension, unattached)
      case Proven =>
        var (k, deleted) := DeleteExact(r.atDelete, attempt, r.atRead.owner.extension);
        if deleted then (Then(e, RecoveryCommit(e.core, r.finish, attempt)), k, Some(RecoveredDone)) else (e, k, None)
      case OwnerAlive => (e, j, if r.expired then Some(RecoveredNot) else None)
      case _ => (e, j, Some(RecoveredError))
  }

  lemma RoundDrops(c: Core, j: Journal, r: Round, a: AttemptId)
    ensures DropsOnly(c, RecoverRound(c, j, r, a).0.core)
  {
    hide Sync;
    SyncFacts(c, r.snapshot);
    SyncFacts(Sync(c, r.snapshot).core, r.finish);
  }

  /** recover_platform_vpn_cleanup_after_confirmed_stop over the rounds it gets to make. */
  function RecoverRun(c: Core, j: Journal, rounds: seq<Round>, attempt: AttemptId): (Eff, Journal, Recovered)
    decreases |rounds|
  {
    if rounds == [] then (Quiet(c), j, RecoveredWaiting)
    else
      var (e, k, done) := RecoverRound(c, j, rounds[0], attempt);
      if done.Some? then (e, k, done.value)
      else
        var (f, l, result) := RecoverRun(e.core, k, rounds[1..], attempt);
        (Then(e, f), l, result)
  }

  /**
   A successful recovery leaves nothing of attempt `a` open here, and unless the
   Extension itself had acknowledged, some round deleted exactly the entry whose
   owner that same round had proven gone.
   */
  lemma {:induction false} RecoveredMeansProven(c: Core, j: Journal, rounds: seq<Round>, a: AttemptId)
    requires RecoverRun(c, j, rounds, a).2.RecoveredDone?
    ensures var s := RecoverRun(c, j, rounds, a).0.core.session; s.attempt == a ==> s.cleanup
    ensures var s := RecoverRun(c, j, rounds, a).0.core.session;
            || (s.attempt == a && s.cleanup)
            || exists k :: 0 <= k < |rounds| && DeletedWithProof(rounds[k], a)
    decreases |rounds|
  {
    var (e, k, done) := RecoverRound(c, j, rounds[0], a);
    RoundMeansProven(c, j, rounds[0], a);
    hide RecoverRound, DeletedWithProof;
    if done.None? {
      RecoveredMeansProven(e.core, k, rounds[1..], a);
      if i: nat :| i < |rounds[1..]| && DeletedWithProof(rounds[1..][i], a) {
        assert DeletedWithProof(rounds[i + 1], a);
      }
    } else {
      assert DeletedWithProof(rounds[0], a) ==> exists i :: 0 <= i < |rounds| && DeletedWithProof(rounds[i], a);
    }
  }

  lemma RoundMeansProven(c: Core, j: Journal, r: Round, a: AttemptId)
    ensures var (e, _, done) := RecoverRound(c, j, r, a);
            done == Some(RecoveredDone) ==>
              && (e.core.session.attempt == a ==> e.core.session.cleanup)
              && ((e.core.session.attempt == a && e.core.session.cleanup) || DeletedWithProof(r, a))
  {
    hide Apply;
  }

  /** The round read an owner of `a`, proved it gone, and deleted exactly that owner's entry. */
  predicate DeletedWithProof(r: Round, a: AttemptId) {
    && r.atRead.Present? && r.atRead.owner.attempt == a
    && r.atDelete.Present? && r.atDelete.owner.attempt == a && r.atDelete.owner.extension == r.atRead.owner.extension
    && (r.atRead.owner.extension.Some? ==> r.extension.holder.None?)
    && (r.atRead.owner.extension.None? ==> !r.atDelete.owner.extension.Some?)
  }
}
