/** Continuation checkpoints: which pairs of lifecycle state and worker disposition may be written, and what may be resumed. */
module Continuation {
  import opened Wrappers
  import opened Strings
  import opened ExecutionGuard
  import opened GuardRuns

  // ---------------------------------------------------------------- checkpoints

  datatype Disposition = ContinueCurrent | ReleaseWaiting | RotateResumable | StopReinvokeRequired | Terminal

  datatype Mechanism =
    | SameSession | GithubNative | ScheduledTask | WorkEventTrigger | WorkPersistent | OwnerReinvoke | NoneTerminal

  /** A checkpoint; `None` stands for a disposition, mechanism or context pressure outside the policy's vocabulary. */
  datatype Checkpoint = Checkpoint(
    repository: string,
    taskId: string,
    lineage: string,
    branch: string,
    pullRequestApplies: bool,
    pullRequest: Option<string>,
    head: string,
    phase: string,
    state: State,
    progress: string,
    completed: seq<string>,
    evidence: seq<string>,
    continuityRef: string,
    blockers: seq<string>,
    pressureKnown: bool,
    disposition: Option<Disposition>,
    mechanism: Option<Mechanism>,
    locator: Option<string>,
    nextAction: string)

  datatype Task = Task(
    repository: string,
    taskId: string,
    lineage: string,
    branch: string,
    pullRequestApplies: bool,
    pullRequest: Option<string>,
    head: string,
    nextAction: string)

  /** The trusted authorities, as they answer during one validation. */
  datatype Authorities = Authorities(
    latest: Option<Checkpoint>,
    provesNoPredecessor: bool,
    currentState: State,
    releases: State -> bool,
    terminal: State -> bool,
    matchesCurrent: Checkpoint -> bool,
    preserves: (Checkpoint, Checkpoint) -> bool,
    live: (Mechanism, string) -> bool,
    supersedes: (Mechanism, string) -> bool,
    automatic: bool,
    finishesWithoutWorker: bool,
    eventHappened: Checkpoint -> bool,
    ownerReinvoked: Checkpoint -> bool,
    provesTransition: (Checkpoint, State) -> bool)

  datatype ContinuationError =
    | TaskInvalid | ShapeInvalid | LineageMismatch | CoordinatesMismatch | StateMismatch | PredecessorUnproved
    | FirstMismatch | ContinuityLost | PairIncompatible | TerminalityRequired | TerminalityRejected
    | ReleaseRejected | ReleaseRequired | AutomaticExists | MechanismNotLive | ReplacementUnproved | WorkStranded
    | NotLatest | EventUnproved | ReinvocationUnproved | NotResumable | TransitionUnproved | StateUnmatched

  predicate Given(s: string)
  {
    Strip(s, Space) != ""
  }

  predicate UniqueGiven(ss: seq<string>)
  {
    (forall i | 0 <= i < |ss| :: Given(ss[i])) && forall i, j | 0 <= i < j < |ss| :: ss[i] != ss[j]
  }

  predicate IsCoordinateChar(c: char)
  {
    'a' <= c <= 'z' || 'A' <= c <= 'Z' || '0' <= c <= '9' || c in {'_', '.', '-'}
  }

  /** An owner and a name, separated by the only slash. */
  predicate IsRepository(s: string)
  {
    var i := Find(s, '/');
    i.Some? && 0 < i.value < |s| - 1 && forall k | 0 <= k < |s| && k != i.value :: IsCoordinateChar(s[k])
  }

  predicate Automatic(m: Mechanism)
  {
    m.GithubNative? || m.ScheduledTask? || m.WorkEventTrigger? || m.WorkPersistent?
  }

  predicate Compatible(d: Disposition, m: Mechanism)
  {
    match d
    case ContinueCurrent => m == SameSession
    case ReleaseWaiting => Automatic(m)
    case RotateResumable => Automatic(m) && m != GithubNative
    case StopReinvokeRequired => m == OwnerReinvoke
    case Terminal => m == NoneTerminal
  }

  predicate ValidTask(t: Task)
  {
    IsRepository(t.repository) && Given(t.taskId) && Given(t.lineage) && Given(t.branch) && IsSha(t.head) &&
    (if t.pullRequestApplies then t.pullRequest.Some? && Given(t.pullRequest.value) else t.pullRequest == None) &&
    Given(t.nextAction)
  }

  predicate WellShaped(c: Checkpoint)
  {
    IsRepository(c.repository) && Given(c.taskId) && Given(c.lineage) && Given(c.branch) && Given(c.phase) &&
    (c.state.Noncanonical? ==> Given(c.state.name)) && Given(c.progress) && Given(c.continuityRef) && Given(c.nextAction) &&
    (if c.pullRequestApplies then c.pullRequest.Some? && Given(c.pullRequest.value) else c.pullRequest == None) &&
    IsSha(c.head) && UniqueGiven(c.completed) && UniqueGiven(c.evidence) && UniqueGiven(c.blockers) &&
    c.pressureKnown && c.disposition.Some? && c.mechanism.Some? &&
    (if Automatic(c.mechanism.value) then c.locator.Some? && Given(c.locator.value) else c.locator == None)
  }

  predicate OnLineage(c: Checkpoint, t: Task)
  {
    c.repository == t.repository && c.taskId == t.taskId && c.lineage == t.lineage
  }

  predicate OnCoordinates(c: Checkpoint, t: Task)
  {
    c.branch == t.branch && c.pullRequestApplies == t.pullRequestApplies && c.pullRequest == t.pullRequest &&
    c.head == t.head && c.nextAction == t.nextAction
  }

  // ---------------------------------------------------------------- validation

  /** Whether disposition and mechanism fit each other and the lifecycle state. */
  function PairError(c: Checkpoint, a: Authorities, state: State): Option<ContinuationError>
    requires WellShaped(c)
  {
    var d := c.disposition.value;
    if !Compatible(d, c.mechanism.value) then Some(PairIncompatible)
    else if d == Terminal then (if a.terminal(state) then None else Some(TerminalityRequired))
    else if a.terminal(state) then Some(TerminalityRejected)
    else if d == ContinueCurrent && a.releases(state) then Some(ReleaseRejected)
    else if (d == ReleaseWaiting || d == StopReinvokeRequired) && !a.releases(state) then Some(ReleaseRequired)
    else if d == RotateResumable && a.releases(state) then Some(ReleaseRejected)
    else None
  }

  /** Whether the mechanism will really carry the work on. */
  function MechanismError(c: Checkpoint, a: Authorities): Option<ContinuationError>
    requires WellShaped(c)
  {
    var d, m := c.disposition.value, c.mechanism.value;
    if d == StopReinvokeRequired && a.automatic then Some(AutomaticExists)
    else if m.ScheduledTask? || m.WorkEventTrigger? || m.WorkPersistent? then
      if !a.live(m, c.locator.value) then Some(MechanismNotLive)
      else if d == RotateResumable && !a.supersedes(m, c.locator.value) then Some(ReplacementUnproved)
      else None
    else if d == ReleaseWaiting && m == GithubNative && !a.finishesWithoutWorker then Some(WorkStranded)
    else None
  }

  function CommonError(c: Checkpoint, t: Task): Option<ContinuationError>
  {
    if !ValidTask(t) then Some(TaskInvalid)
    else if !WellShaped(c) then Some(ShapeInvalid)
    else if !OnLineage(c, t) then Some(LineageMismatch)
    else None
  }

  function WriteError(c: Checkpoint, t: Task, a: Authorities): Option<ContinuationError>
  {
    if CommonError(c, t).Some? then CommonError(c, t)
    else if !OnCoordinates(c, t) then Some(CoordinatesMismatch)
    else if c.state != a.currentState then Some(StateMismatch)
    else if a.latest.None? && !a.provesNoPredecessor then Some(PredecessorUnproved)
    else if a.latest.None? && !a.matchesCurrent(c) then Some(FirstMismatch)
    else if a.latest.Some? && !a.preserves(a.latest.value, c) then Some(ContinuityLost)
    else if PairError(c, a, a.currentState).Some? then PairError(c, a, a.currentState)
    else MechanismError(c, a)
  }

  function ReadError(c: Checkpoint, t: Task, a: Authorities): Option<ContinuationError>
  {
    if CommonError(c, t).Some? then CommonError(c, t)
    else if a.latest != Some(c) then Some(NotLatest)
    else if PairError(c, a, c.state).Some? then PairError(c, a, c.state)
    else if Automatic(c.mechanism.value) && !a.eventHappened(c) then Some(EventUnproved)
    else if c.mechanism.value == OwnerReinvoke && !a.ownerReinvoked(c) then Some(ReinvocationUnproved)
    else if !Automatic(c.mechanism.value) && c.mechanism.value != OwnerReinvoke then Some(NotResumable)
    else if !a.provesTransition(c, a.currentState) then Some(TransitionUnproved)
    else if !a.matchesCurrent(c) then Some(StateUnmatched)
    else None
  }

  // ---------------------------------------------------------------- composed with the execution guard

  /** Release and terminality are those of the execution guard. */
  ghost predicate GuardedBy(a: Authorities)
  {
    forall s :: a.releases(s) == Releases(s) && a.terminal(s) == (s == DONE)
  }

  /** Something carries the work on after its worker was released. */
  predicate Continues(c: Checkpoint, a: Authorities)
    requires WellShaped(c)
  {
    var m := c.mechanism.value;
    match m
    case ScheduledTask => a.live(m, c.locator.value)
    case WorkEventTrigger => a.live(m, c.locator.value)
    case WorkPersistent => a.live(m, c.locator.value)
    case GithubNative => a.finishesWithoutWorker
    case OwnerReinvoke => !a.automatic
    case _ => false
  }

  /** In an accepted checkpoint the guard's state fixes the disposition up to the choice between the two of its class. */
  lemma WrittenPairs(c: Checkpoint, t: Task, a: Authorities)
    requires GuardedBy(a) && WriteError(c, t, a) == None
    ensures WellShaped(c) && Compatible(c.disposition.value, c.mechanism.value)
    ensures c.disposition.value == Terminal <==> c.state == DONE
    ensures c.disposition.value in {ReleaseWaiting, StopReinvokeRequired} <==> Parked(c.state)
    ensures c.disposition.value in {ContinueCurrent, RotateResumable} <==> !Releases(c.state)
  {
  }

  /** A released task that is not done always has something that carries it on. */
  lemma ReleasedContinues(c: Checkpoint, t: Task, a: Authorities)
    requires GuardedBy(a) && WriteError(c, t, a) == None && Parked(c.state)
    ensures WellShaped(c) && Continues(c, a)
  {
    WrittenPairs(c, t, a);
  }

  /** Every combination of a disposition with a state of its class and a proven mechanism can be written. */
  lemma WriteExactly(c: Checkpoint, t: Task, a: Authorities)
    requires GuardedBy(a) && CommonError(c, t) == None && OnCoordinates(c, t) && c.state == a.currentState
    requires if a.latest.None? then a.provesNoPredecessor && a.matchesCurrent(c) else a.preserves(a.latest.value, c)
    ensures WriteError(c, t, a) == None <==>
      Compatible(c.disposition.value, c.mechanism.value) &&
      match c.disposition.value
      case Terminal => c.state == DONE
      case ContinueCurrent => !Releases(c.state)
      case RotateResumable =>
        !Releases(c.state) && a.live(c.mechanism.value, c.locator.value) && a.supersedes(c.mechanism.value, c.locator.value)
      case _ => Parked(c.state) && Continues(c, a)
  {
    hide IsRepository, Given, IsSha, UniqueGiven, ValidTask;
    assert a.releases(c.state) == Releases(c.state) && a.terminal(c.state) == (c.state == DONE);
  }

  /** Terminal and same-session checkpoints are never resumed, whatever the authorities say. */
  lemma NeverResumed(c: Checkpoint, t: Task, a: Authorities)
    requires c.disposition in {Some(Terminal), Some(ContinueCurrent)} || c.mechanism in {Some(SameSession), Some(NoneTerminal)}
    ensures ReadError(c, t, a).Some?
  {
  }

  /** A checkpoint that was accepted when written is resumable later exactly when its own mechanism fired and the authorities vouch for now. */
  lemma WrittenThenRead(c: Checkpoint, t: Task, written: Authorities, later: Task, a: Authorities)
    requires GuardedBy(written) && GuardedBy(a) && WriteError(c, t, written) == None
    requires ValidTask(later) && OnLineage(c, later) && a.latest == Some(c)
    ensures ReadError(c, later, a) == None <==>
      (if c.mechanism.value == OwnerReinvoke then a.ownerReinvoked(c)
       else Automatic(c.mechanism.value) && a.eventHappened(c)) &&
      a.provesTransition(c, a.currentState) && a.matchesCurrent(c)
  {
    hide IsRepository, Given, IsSha, UniqueGiven, WellShaped, ValidTask, OnLineage;
    assert written.releases(c.state) == a.releases(c.state) && written.terminal(c.state) == a.terminal(c.state);
  }

  /** The guard's decision to release the session and the checkpoint written in its state agree. */
  lemma DecisionMatchesDisposition(g: Guard, current: Snapshot, action: Action, previous: Option<Snapshot>, d: Decision,
                                   c: Checkpoint, t: Task, a: Authorities)
    requires Decide(g, current, action, previous) == Success(d) && a.currentState == d.state
    requires GuardedBy(a) && WriteError(c, t, a) == None
    ensures d.releaseSession <==> c.disposition.value !in {ContinueCurrent, RotateResumable}
  {
    VerdictReleases(g, current, action, previous);
    WrittenPairs(c, t, a);
  }

  /** After a terminal checkpoint nothing follows: it is never resumed, and every later run of the guard only observes. */
  lemma TerminalIsFinal(g: Guard, done: Snapshot, turns: seq<Turn>, c: Checkpoint, t: Task, written: Authorities,
                        later: Task, a: Authorities)
    requires IsRun(g, Some(done), turns) && GuardedBy(written)
    requires written.currentState == done.state && WriteError(c, t, written) == None && c.disposition == Some(Terminal)
    ensures ReadError(c, later, a).Some? && Admitted(turns) == 0
    ensures forall i | 0 <= i < |turns| :: turns[i].decision.state == DONE
  {
    WrittenPairs(c, t, written);
    NeverResumed(c, later, a);
    DoneAbsorbs(g, done, turns);
  }

  /** While a released task waits with unchanged material, the guard admits nothing; only the proven mechanism carries it on. */
  lemma ReleasedWaits(g: Guard, parked: Snapshot, turns: seq<Turn>, c: Checkpoint, t: Task, a: Authorities)
    requires IsRun(g, Some(parked), turns) && OnMaterial(turns, parked.material) && GuardedBy(a)
    requires a.currentState == parked.state && WriteError(c, t, a) == None
    requires c.disposition in {Some(ReleaseWaiting), Some(StopReinvokeRequired)}
    ensures Admitted(turns) == 0 && WellShaped(c) && Continues(c, a)
  {
    WrittenPairs(c, t, a);
    ReleasedContinues(c, t, a);
    ReleaseHolds(g, parked, turns);
  }

  // ---------------------------------------------------------------- the execution surface

  /** Trusted capability facts; times are seconds. */
  datatype Facts = Facts(
    observedAt: int,
    required: Option<string>,
    compatible: seq<string>,
    available: seq<string>,
    authorized: seq<string>,
    exhausted: bool,
    evidence: seq<string>)

  datatype SurfaceError = UntrustedTask | EvidenceInvalid | CapabilityUnavailable | FallbackIncomplete

  predicate Printable(ss: seq<string>)
  {
    UniqueGiven(ss) &&
    forall i | 0 <= i < |ss| :: Strip(ss[i], Space) == ss[i] && forall c | c in ss[i] :: c as int >= 32
  }

  predicate ValidFacts(f: Facts, required: Option<string>, now: int, capabilities: set<string>)
  {
    f.required == required && 0 <= now - f.observedAt <= 900 && f.evidence != [] && UniqueGiven(f.evidence) &&
    Printable(f.compatible) && Printable(f.available) && Printable(f.authorized) &&
    (required.Some? ==> required.value in capabilities)
  }

  predicate Eligible(f: Facts, surface: string)
  {
    surface in f.compatible && surface in f.available && surface in f.authorized
  }

  /** The first compatible surface that is also available and authorized, for a trusted task on valid evidence. */
  method SelectSurface(task: Task, f: Facts, required: Option<string>, now: int, capabilities: set<string>)
    returns (r: Result<string, SurfaceError>)
    ensures r == Failure(UntrustedTask) <==> !ValidTask(task)
    ensures r == Failure(EvidenceInvalid) <==> ValidTask(task) && !ValidFacts(f, required, now, capabilities)
    ensures r.Success? ==>
      exists i :: 0 <= i < |f.compatible| && f.compatible[i] == r.value && Eligible(f, r.value) &&
                  forall k | 0 <= k < i :: !Eligible(f, f.compatible[k])
    ensures r == Failure(CapabilityUnavailable) || r == Failure(FallbackIncomplete) ==> forall s :: !Eligible(f, s)
    ensures r == Failure(CapabilityUnavailable) ==> f.exhausted
    ensures r == Failure(FallbackIncomplete) ==> !f.exhausted
  {
    if !ValidTask(task) {
      return Failure(UntrustedTask);
    }
    if !ValidFacts(f, required, now, capabilities) {
      return Failure(EvidenceInvalid);
    }
    for i := 0 to |f.compatible|
      invariant forall k | 0 <= k < i :: !Eligible(f, f.compatible[k])
    {
      if f.compatible[i] in f.available && f.compatible[i] in f.authorized {
        return Success(f.compatible[i]);
      }
    }
    return Failure(if f.exhausted then CapabilityUnavailable else FallbackIncomplete);
  }
}
