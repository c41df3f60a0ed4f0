/** Capability routing: when a worker may be released with a delegated merge-queue route, and the request it then prints. */
module IntegrationCapability {
  import opened Wrappers
  import opened Strings
  import opened ControlCommand
  import Decimals

  datatype ExecutorEvidence = ExecutorEvidence(
    repository: string,
    ref: string,
    workflowPath: string,
    workflowBlob: string,
    main: string,
    observedAt: int,
    operational: bool,
    canaryRepository: string,
    canaryWorkflowBlob: string,
    canaryMain: string,
    canaryProofRetained: bool,
    principal: string)

  datatype Evidence = Evidence(
    required: bool,
    observedAt: int,
    operations: seq<string>,
    routes: seq<string>,
    executor: Option<ExecutorEvidence>,
    actor: Option<string>)

  /** The validated routing policy. */
  datatype Policy = Policy(
    directOperation: string,
    delegatedOperation: string,
    delegatedRoute: string,
    maximumAge: int,
    repository: string,
    ref: string,
    workflowPath: string,
    workflowBlob: string)

  datatype State = NotRequired | DirectCapable | DelegatedCapable | Unavailable

  /** A decision; only `Decide` seals one. */
  datatype Decision = Decision(state: State, main: Option<string>, sealed: bool)

  predicate Fresh(observed: int, now: int, maximumAge: int)
  {
    0 <= observed <= now && now - observed <= maximumAge
  }

  predicate Operational(e: ExecutorEvidence, policy: Policy, now: int)
  {
    e.repository == policy.repository && e.ref == policy.ref && e.workflowPath == policy.workflowPath &&
    e.workflowBlob == policy.workflowBlob && IsSha(e.main) && e.operational && Fresh(e.observedAt, now, policy.maximumAge) &&
    e.canaryRepository == policy.repository && e.canaryWorkflowBlob == policy.workflowBlob && IsSha(e.canaryMain) &&
    e.canaryMain == e.main && e.canaryProofRetained
  }

  predicate IsAlphanumeric(c: char)
  {
    'a' <= c <= 'z' || 'A' <= c <= 'Z' || '0' <= c <= '9'
  }

  /** Up to 39 letters, digits and inner hyphens. */
  predicate IsLogin(s: string)
  {
    1 <= |s| <= 39 && IsAlphanumeric(s[0]) && IsAlphanumeric(s[|s| - 1]) &&
    forall i | 0 <= i < |s| :: IsAlphanumeric(s[i]) || s[i] == '-'
  }

  predicate SameActor(actor: string, principal: string)
  {
    IsLogin(actor) && IsLogin(principal) && Lower(actor) == Lower(principal)
  }

  predicate UniqueNames(names: seq<string>)
  {
    (forall i | 0 <= i < |names| :: Strip(names[i], Space) != "" && Strip(names[i], Space) == names[i]) &&
    forall i, j | 0 <= i < j < |names| :: names[i] != names[j]
  }

  predicate WellFormed(e: Evidence)
  {
    UniqueNames(e.operations) && UniqueNames(e.routes)
  }

  function Seal(state: State, main: Option<string>): Decision
  {
    Decision(state, main, true)
  }

  predicate Delegable(e: Evidence, policy: Policy, now: int)
  {
    policy.delegatedOperation in e.operations && policy.delegatedRoute in e.routes &&
    e.executor.Some? && Operational(e.executor.value, policy, now) &&
    e.actor.Some? && SameActor(e.actor.value, e.executor.value.principal)
  }

  /** The scheduling decision; evidence of any other type is no evidence. */
  function Decide(subject: Option<Evidence>, policy: Policy, now: int): Decision
  {
    if subject.None? || !WellFormed(subject.value) then Seal(Unavailable, None)
    else
      var e := subject.value;
      if !e.required then Seal(NotRequired, None)
      else if !Fresh(e.observedAt, now, policy.maximumAge) then Seal(Unavailable, None)
      else if policy.directOperation in e.operations then Seal(DirectCapable, None)
      else if Delegable(e, policy, now) then Seal(DelegatedCapable, Some(e.executor.value.canaryMain))
      else Seal(Unavailable, None)
  }

  datatype RequestError = DecisionRequired | RepositoryRequired | PullRequestPositive | HeadNotSha

  function BuildRequest(d: Decision, repository: string, pullRequest: int, head: string): Result<string, RequestError>
  {
    if !d.sealed || d.state != DelegatedCapable || d.main.None? || !IsSha(d.main.value) then Failure(DecisionRequired)
    else if Strip(repository, Space) == "" then Failure(RepositoryRequired)
    else if pullRequest <= 0 then Failure(PullRequestPositive)
    else if !IsSha(head) then Failure(HeadNotSha)
    else Success(Print(Command(repository, pullRequest, head, d.main.value)))
  }

  /** A delegated decision binds the protected main that the executor evidence and its canary both observed, and nobody else's credential. */
  lemma DelegatedExactly(subject: Option<Evidence>, policy: Policy, now: int)
    ensures var d := Decide(subject, policy, now);
      d.state == DelegatedCapable <==>
        subject.Some? && WellFormed(subject.value) && subject.value.required &&
        Fresh(subject.value.observedAt, now, policy.maximumAge) && policy.directOperation !in subject.value.operations &&
        Delegable(subject.value, policy, now)
    ensures var d := Decide(subject, policy, now);
      d.main.Some? ==>
        d.state == DelegatedCapable && IsSha(d.main.value) &&
        d.main.value == subject.value.executor.value.canaryMain == subject.value.executor.value.main
  {
  }

  /** The request that a delegated decision prints parses, in an allowed repository, to the coordinates it was built from. */
  lemma RequestParses(subject: Option<Evidence>, policy: Policy, now: int, repository: string, pullRequest: int, head: string)
    requires AllowedRepository(repository)
    ensures var r := BuildRequest(Decide(subject, policy, now), repository, pullRequest, head);
      r.Success? ==>
        pullRequest > 0 && subject.Some? && subject.value.executor.Some? &&
        Parse(r.value) == Some(Command(repository, pullRequest, head, subject.value.executor.value.canaryMain))
  {
    var d := Decide(subject, policy, now);
    var r := BuildRequest(d, repository, pullRequest, head);
    DelegatedExactly(subject, policy, now);
    if r.Success? {
      ParsePrint(Command(repository, pullRequest, head, d.main.value));
    }
  }

  /** A request printed for any other repository is never accepted by the parser. */
  lemma ForeignRequest(d: Decision, repository: string, pullRequest: int, head: string)
    ensures var r := BuildRequest(d, repository, pullRequest, head);
      r.Success? && Parse(r.value).Some? ==> AllowedRepository(repository)
  {
    var r := BuildRequest(d, repository, pullRequest, head);
    if r.Success? && Parse(r.value).Some? {
      var other, digits, otherHead, main := WordsJoin(r.value);
      NoBlanks(other, digits, otherHead);
      SameFields(repository, Decimals.Decimal(pullRequest), head, d.main.value, other, digits, otherHead, main);
    }
  }

  /** Read from the right, the blanks separate the last three fields. */
  lemma SameFields(a: string, b: string, c: string, d: string, a': string, b': string, c': string, d': string)
    requires ' ' !in b && ' ' !in c && ' ' !in d && ' ' !in b' && ' ' !in c' && ' ' !in d'
    requires Fields(a, b, c, d) == Fields(a', b', c', d')
    ensures a == a'
  {
    var x3, x3' := PREFIX + a + " " + b + " " + c, PREFIX + a' + " " + b' + " " + c';
    SameLastWord(x3, d, x3', d');
    var x2, x2' := PREFIX + a + " " + b, PREFIX + a' + " " + b';
    SameLastWord(x2, c, x2', c');
    SameLastWord(PREFIX + a, b, PREFIX + a', b');
    assert (PREFIX + a)[|PREFIX|..] == a && (PREFIX + a')[|PREFIX|..] == a';
  }

  lemma SameLastWord(x: string, w: string, y: string, v: string)
    requires ' ' !in w && ' ' !in v && x + " " + w == y + " " + v
    ensures x == y && w == v
  {
    var s := x + " " + w;
    assert s[|x|] == ' ' && s[|y|] == ' ';
    assert forall i | |x| < i < |s| :: s[i] == w[i - |x| - 1];
    assert forall i | |y| < i < |s| :: s[i] == v[i - |y| - 1];
    assert |x| == |y|;
    assert s[..|x|] == x && s[..|y|] == y && s[|x| + 1..] == w && s[|y| + 1..] == v;
  }
}
