/** The bounded-execution guard: one decision, and every run that feeds each decision back as predecessor. */
module ExecutionGuard {
  import opened Wrappers

  datatype State = RUNNING | WAITING_EXTERNAL | BLOCKED | STALLED | READY | DONE | Noncanonical(name: string)

  datatype Action = Observe | Mutate | Retrigger | Retry | RunHeavyValidation | Complete | Unsupported(name: string)

  /** The eight material fields that both fingerprints cover. */
  datatype Material = Material(
    repository: string,
    taskId: string,
    headSha: string,
    phase: string,
    blockingDependency: string,
    dependencyKind: string,
    gateState: string,
    firstFailure: string)

  datatype Snapshot = Snapshot(
    material: Material,
    state: State,
    candidateFrozen: bool,
    materialReason: string,
    failureCycles: int,
    heavyAttempts: int,
    completionVerified: bool)

  /** The two budgets and the material reasons; the rest of the policy is fixed by its schema. */
  datatype Policy = Policy(retryBudget: int, heavyBudget: int, materialReasons: seq<string>)

  /** A policy together with the digest of the material fields; `GuardFingerprint.Digest` is the one in use. */
  datatype Guard = Guard(policy: Policy, fingerprint: Material -> string)

  datatype Decision = Decision(
    allowed: bool,
    state: State,
    releaseSession: bool,
    progressFingerprint: string,
    failureFingerprint: string,
    snapshot: Snapshot)

  datatype GuardError =
    | InvalidPolicy
    | InvalidState
    | InvalidCounter
    | InvalidDependencyKind
    | DependencyWithoutKind
    | UnverifiedDone
    | IdentityChanged
    | FailureCyclesRegressed
    | HeavyAttemptsRegressed
    | UnsupportedAction

  function Fingerprint(g: Guard, s: Snapshot): string
  {
    g.fingerprint(s.material)
  }

  // ---------------------------------------------------------------- one decision

  function DependencyState(kind: string): Option<State>
  {
    if kind == "external" then Some(WAITING_EXTERNAL)
    else if kind == "owner" || kind == "permission" || kind == "policy" then Some(BLOCKED)
    else None
  }

  /** Released, but resumable by material progress. */
  predicate Parked(state: State)
  {
    state == WAITING_EXTERNAL || state == BLOCKED || state == STALLED
  }

  predicate Releases(state: State)
  {
    Parked(state) || state == DONE
  }

  predicate ValidPolicy(policy: Policy)
  {
    policy.retryBudget >= 0 && policy.heavyBudget >= 0 && policy.materialReasons != []
  }

  function SnapshotError(g: Guard, s: Snapshot): Option<GuardError>
  {
    if !ValidPolicy(g.policy) then Some(InvalidPolicy)
    else if s.state.Noncanonical? then Some(InvalidState)
    else if s.failureCycles < 0 || s.heavyAttempts < 0 then Some(InvalidCounter)
    else if s.material.dependencyKind != "none" && DependencyState(s.material.dependencyKind).None? then
      Some(InvalidDependencyKind)
    else if s.material.blockingDependency != "" && s.material.dependencyKind == "none" then Some(DependencyWithoutKind)
    else if s.state == DONE && !s.completionVerified then Some(UnverifiedDone)
    else None
  }

  function HistoryError(g: Guard, current: Snapshot, previous: Snapshot): Option<GuardError>
  {
    if current.material.repository != previous.material.repository || current.material.taskId != previous.material.taskId
    then Some(IdentityChanged)
    else if Fingerprint(g, current) == Fingerprint(g, previous) && current.failureCycles < previous.failureCycles
    then Some(FailureCyclesRegressed)
    else if current.material.headSha == previous.material.headSha && current.heavyAttempts < previous.heavyAttempts
    then Some(HeavyAttemptsRegressed)
    else None
  }

  /** The current snapshot with a freeze inherited on the same head. */
  function Effective(current: Snapshot, previous: Option<Snapshot>): Snapshot
  {
    if previous.Some? && previous.value.candidateFrozen && current.material.headSha == previous.value.material.headSha
    then current.(candidateFrozen := true)
    else current
  }

  function Decided(g: Guard, allowed: bool, state: State, snapshot: Snapshot): Decision
  {
    var result := snapshot.(state := state, completionVerified := snapshot.completionVerified || state == DONE);
    Decision(allowed, state, Releases(state), Fingerprint(g, result), Fingerprint(g, result), result)
  }

  predicate Changed(g: Guard, current: Snapshot, previous: Option<Snapshot>)
  {
    previous.None? || Fingerprint(g, current) != Fingerprint(g, previous.value)
  }

  function InputError(g: Guard, current: Snapshot, action: Action, previous: Option<Snapshot>): Option<GuardError>
  {
    if SnapshotError(g, current).Some? then SnapshotError(g, current)
    else if previous.Some? && SnapshotError(g, previous.value).Some? then SnapshotError(g, previous.value)
    else if previous.Some? && HistoryError(g, current, previous.value).Some? then HistoryError(g, current, previous.value)
    else if action.Unsupported? then Some(UnsupportedAction)
    else None
  }

  function Decide(g: Guard, current: Snapshot, action: Action, previous: Option<Snapshot>): Result<Decision, GuardError>
  {
    var error := InputError(g, current, action, previous);
    if error.Some? then Failure(error.value) else Success(Verdict(g, current, action, previous))
  }

  /** The decision on sound input. */
  function Verdict(g: Guard, current: Snapshot, action: Action, previous: Option<Snapshot>): Decision
  {
    var effective := Effective(current, previous);
    var dependency := DependencyState(effective.material.dependencyKind);
    var changed := Changed(g, effective, previous);
    if previous.Some? && previous.value.state == DONE then
      Decided(g, action == Observe, DONE, previous.value)
    else if effective.state == DONE then
      Decided(g, action == Observe, DONE, effective)
    else if effective.material.blockingDependency != "" && dependency.Some? then
      Decided(g, action == Observe, dependency.value, effective)
    else if previous.Some? && Parked(previous.value.state) && !changed then
      Decided(g, action == Observe, previous.value.state, previous.value)
    else if action == Observe then
      Decided(g, true, effective.state, effective)
    else if previous.None? then
      Decided(g, false, effective.state, effective)
    else
      Operational(g, effective, action, changed)
  }

  /** The tail of `Verdict`: an operational action with a predecessor and no terminal, blocking or parked state. */
  function Operational(g: Guard, effective: Snapshot, action: Action, changed: bool): Decision
  {
    var edits := action == Mutate || action == Retrigger;
    if edits && !changed then
      Decided(g, false, effective.state, effective)
    else if effective.candidateFrozen && edits && (!changed || effective.materialReason !in g.policy.materialReasons) then
      Decided(g, false, effective.state, effective)
    else if action == Retry then
      if effective.material.firstFailure == "" then
        Decided(g, false, effective.state, effective)
      else if effective.failureCycles >= g.policy.retryBudget then
        Decided(g, false, STALLED, effective)
      else
        Decided(g, true, RUNNING, effective.(failureCycles := effective.failureCycles + 1))
    else if action == RunHeavyValidation then
      if effective.heavyAttempts >= g.policy.heavyBudget then
        Decided(g, false, STALLED, effective)
      else
        Decided(g, true, effective.state, effective.(heavyAttempts := effective.heavyAttempts + 1))
    else if action == Complete then
      if !effective.completionVerified then
        Decided(g, false, effective.state, effective)
      else
        Decided(g, true, DONE, effective)
    else
      Decided(g, true, RUNNING, effective)
  }

  ghost predicate Operates(d: Decision, action: Action)
  {
    d.allowed && action != Observe
  }

  /** Where a decision's snapshot comes from: the predecessor, or the current snapshot with its counters grown. */
  ghost predicate Follows(next: Snapshot, current: Snapshot, previous: Option<Snapshot>)
  {
    (previous.Some? && next.material == previous.value.material &&
     next.failureCycles == previous.value.failureCycles && next.heavyAttempts == previous.value.heavyAttempts &&
     next.candidateFrozen == previous.value.candidateFrozen)
    ||
    (next.material == current.material &&
     next.failureCycles >= current.failureCycles && next.heavyAttempts >= current.heavyAttempts &&
     next.candidateFrozen == Effective(current, previous).candidateFrozen)
  }

  lemma OperationalFollows(g: Guard, effective: Snapshot, action: Action, changed: bool)
    requires SnapshotError(g, effective).None?
    ensures var next := Operational(g, effective, action, changed).snapshot;
      next.material == effective.material && next.candidateFrozen == effective.candidateFrozen &&
      next.failureCycles >= effective.failureCycles && next.heavyAttempts >= effective.heavyAttempts &&
      SnapshotError(g, next).None?
  {
  }

  lemma EffectiveSound(g: Guard, current: Snapshot, previous: Option<Snapshot>)
    ensures SnapshotError(g, Effective(current, previous)) == SnapshotError(g, current)
  {
  }

  lemma DecisionFollows(g: Guard, current: Snapshot, action: Action, previous: Option<Snapshot>)
    requires Decide(g, current, action, previous).Success?
    ensures var next := Decide(g, current, action, previous).value.snapshot;
      Follows(next, current, previous) && SnapshotError(g, next).None?
  {
    hide SnapshotError, HistoryError, Operational, DependencyState, Parked, Releases;
    var effective := Effective(current, previous);
    EffectiveSound(g, current, previous);
    OperationalFollows(g, effective, action, Changed(g, effective, previous));
    VerdictSound(g, current, action, previous);
  }

  /** A verdict in a canonical state leaves a sound snapshot sound. */
  lemma DecidedSound(g: Guard, allowed: bool, state: State, s: Snapshot)
    requires SnapshotError(g, s).None? && !state.Noncanonical?
    ensures SnapshotError(g, Decided(g, allowed, state, s).snapshot).None?
  {
  }

  lemma VerdictSound(g: Guard, current: Snapshot, action: Action, previous: Option<Snapshot>)
    requires SnapshotError(g, current).None? && (previous.Some? ==> SnapshotError(g, previous.value).None?)
    ensures SnapshotError(g, Verdict(g, current, action, previous).snapshot).None?
  {
    var effective := Effective(current, previous);
    var dependency := DependencyState(effective.material.dependencyKind);
    assert SnapshotError(g, effective).None?;
    if previous.Some? {
      DecidedSound(g, action == Observe, DONE, previous.value);
      DecidedSound(g, action == Observe, previous.value.state, previous.value);
    }
    DecidedSound(g, action == Observe, DONE, effective);
    DecidedSound(g, true, effective.state, effective);
    DecidedSound(g, false, effective.state, effective);
    if dependency.Some? {
      DecidedSound(g, action == Observe, dependency.value, effective);
    }
    OperationalFollows(g, effective, action, Changed(g, effective, previous));
  }

  /** Every decision releases the session exactly in the releasing states. */
  lemma VerdictReleases(g: Guard, current: Snapshot, action: Action, previous: Option<Snapshot>)
    ensures var d := Verdict(g, current, action, previous); d.releaseSession == Releases(d.state) && d.state == d.snapshot.state
  {
    OperationalReleases(g, Effective(current, previous), action, Changed(g, Effective(current, previous), previous));
  }

  lemma OperationalReleases(g: Guard, effective: Snapshot, action: Action, changed: bool)
    ensures var d := Operational(g, effective, action, changed);
      d.releaseSession == Releases(d.state) && d.state == d.snapshot.state
  {
  }

  /**
   A decision fails only on unsound input. Its snapshot can itself be decided next, and as a predecessor it never
   makes a later decision fail: that one fails only for its own current snapshot, history or action.
   */
  lemma DecisionContinues(g: Guard, current: Snapshot, action: Action, previous: Option<Snapshot>)
    ensures Decide(g, current, action, previous).Success? <==> InputError(g, current, action, previous).None?
    ensures Decide(g, current, action, previous).Success? ==>
      var next := Decide(g, current, action, previous).value.snapshot;
      (previous.Some? ==> HistoryError(g, next, previous.value).None?) &&
      (forall a: Action | !a.Unsupported? :: Decide(g, next, a, Some(next)).Success?) &&
      forall later: Snapshot, a: Action :: Decide(g, later, a, Some(next)).Success? <==>
        SnapshotError(g, later).None? && HistoryError(g, later, next).None? && !a.Unsupported?
  {
    if Decide(g, current, action, previous).Success? {
      var next := Decide(g, current, action, previous).value.snapshot;
      DecisionFollows(g, current, action, previous);
      forall a: Action | !a.Unsupported?
        ensures Decide(g, next, a, Some(next)).Success?
      {
        assert InputError(g, next, a, Some(next)).None?;
      }
    }
  }

  /** An admitted operational action keeps the session, except completion and a heavy run declared in a released state. */
  lemma AdmittedReleaseExact(g: Guard, current: Snapshot, action: Action, previous: Option<Snapshot>)
    requires Decide(g, current, action, previous).Success?
    requires Operates(Decide(g, current, action, previous).value, action)
    ensures Decide(g, current, action, previous).value.releaseSession <==>
      action == Complete || (action == RunHeavyValidation && Releases(current.state))
  {
  }
}
