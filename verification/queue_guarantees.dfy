/** What every execution of the merge-queue executor guarantees, for any behaviour of the server. */
module QueueGuarantees {
  import opened Wrappers
  import opened Strings
  import opened Decimals
  import opened ControlCommand
  import opened SubmissionRouting
  import opened QueueServer
  import opened QueueProtocol
  import opened QueueChecks
  import IntegrationCapability

  predicate IsPut(e: Event)
  {
    e.Exchanged? && e.request.PutMerge?
  }

  /** There is at most one submission, and none but the recorded one. */
  lemma AtMostOneSubmission(j: Judge, trace: seq<Event>, from: nat, put: Option<nat>, t: Target)
    requires Safe(j, trace, from, put, t)
    ensures forall i | from <= i < |trace| && IsPut(trace[i]) :: put == Some(i)
  {
    if put.Some? {
      var k := put.value;
      forall i | from <= i < |trace| && i != k
        ensures !IsPut(trace[i])
      {
        if i > k && AcceptedUuid(j, trace[k]).Some? {
          assert trace[k + 1].Persisted?;
        }
      }
    }
  }

  /**
   A receipt is persisted exactly once, right after a submission that was accepted with that UUID; whatever is requested
   later comes after it has been stored.
   */
  lemma PersistedFirst(j: Judge, trace: seq<Event>, from: nat, put: Option<nat>, t: Target)
    requires Safe(j, trace, from, put, t)
    ensures forall i | from <= i < |trace| && trace[i].Persisted? ::
      put == Some(i - 1) && AcceptedUuid(j, trace[i - 1]) == Some(trace[i].receipt.uuid)
    ensures put.Some? && AcceptedUuid(j, trace[put.value]).Some? ==>
      put.value + 1 < |trace| && trace[put.value + 1].Persisted? && (|trace| > put.value + 2 ==> trace[put.value + 1].stored)
  {
    if put.Some? {
      var k := put.value;
      forall i | from <= i < |trace| && trace[i].Persisted?
        ensures i == k + 1 && AcceptedUuid(j, trace[k]).Some?
      {
      }
    }
  }

  /** An outcome is either an acceptance of the 202 just answered, or a reconciliation that leaves no receipt behind. */
  lemma OutcomeHonest(j: Judge, trace: seq<Event>, from: nat, k: nat, t: Target, o: Outcome)
    requires Safe(j, trace, from, Some(k), t) && Claims(j, trace, k, t, o)
    ensures o.Accepted? <==> trace[k].reply.status == 202
    ensures o.Accepted? ==>
      Persisted(o.receipt, true) in trace[from..] && o.receipt.uuid == o.readback.uuid &&
      o.receipt.(status := "", sequence := 0) == o.readback.(status := "", sequence := 0) &&
      o.receipt.head == t.coordinates.head && o.receipt.action == "merge_queue" && o.receipt.sequence < o.readback.sequence
    ensures o.ReconciliationRequired? ==> forall e | e in trace[from..] :: !e.Persisted?
  {
    if o.Accepted? {
      assert trace[from..][k + 1 - from] == Persisted(o.receipt, true);
    } else {
      PersistedFirst(j, trace, from, Some(k), t);
      forall e | e in trace[from..]
        ensures !e.Persisted?
      {
        var i :| 0 <= i < |trace[from..]| && trace[from..][i] == e;
        assert trace[from + i] == e;
      }
    }
  }

  // ---------------------------------------------------------------- under the judgement in use

  /** What a submission had read: the command that asks for it, and right before it protected main as bound. */
  lemma SubmissionFenced(site: Site, j: Judge, trace: seq<Event>, from: nat, k: nat, t: Target)
    requires Submitted(j, trace, from, k, t) && j == Judging(site)
    ensures from + 2 < k < |trace|
    ensures Answered(trace[from], GetComment(t.coordinates.comment)) &&
            ControlOk(trace[from].reply.body, t.coordinates, t.actor)
    ensures Answered(trace[k - 1], GetMain) && Get(trace[k - 1].reply.body, Key.Sha) == Str(t.coordinates.main)
    ensures trace[k].Exchanged? && trace[k].request ==
              PutMerge(MergeRequest(t.coordinates.repository, t.coordinates.pullRequest, t.coordinates.head, "merge_queue"))
  {
    assert j.control(trace[from].reply.body, t.coordinates, t.actor) && j.main(trace[k - 1].reply.body, t.coordinates.main);
    var now :| j.request(t.coordinates, now) == Some(trace[k].request.merge);
    RequestFor(t.coordinates, now);
  }

  lemma RequestFor(c: Coordinates, now: int)
    ensures var r := ExecutorRequest(c.repository, c.pullRequest, c.head, c.comment, now);
      r.Some? ==> r.value == MergeRequest(c.repository, c.pullRequest, c.head, "merge_queue")
  {
  }

  /** Three reads: who the executor is, whether that is a member, and what the member may do to the repository. */
  ghost predicate MemberRead(trace: seq<Event>, at: nat, t: Target)
  {
    at + 3 <= |trace| &&
    Answered(trace[at], GetUser) && Get(trace[at].reply.body, Key.Login) == Str(t.actor) &&
    Answered(trace[at + 1], GetMembership) && MemberOk(trace[at + 1].reply.status, trace[at + 1].reply.body, t.actor) &&
    Answered(trace[at + 2], GetPermission(t.coordinates.repository, t.actor)) && PermissionError(trace[at + 2].reply.body) == None
  }

  /** In whose name it was made: an active member of the organization with permission to integrate into the target. */
  lemma SubmissionByMember(site: Site, j: Judge, trace: seq<Event>, from: nat, k: nat, t: Target)
    requires Submitted(j, trace, from, k, t) && j == Judging(site)
    ensures from + 6 <= k && MemberRead(trace, k - 4, t)
  {
    var at := from + QualificationLength(j, t.coordinates);
    assert k - 4 == at;
    PrincipalRead(site, j, trace, at, t);
  }

  lemma PrincipalRead(site: Site, j: Judge, trace: seq<Event>, at: nat, t: Target)
    requires PrincipalPassed(j, trace, at, t) && j == Judging(site)
    ensures MemberRead(trace, at, t)
  {
    assert j.principal(trace[at].reply.body, t.actor);
    assert j.member(trace[at + 1].reply.status, trace[at + 1].reply.body, t.actor);
    assert j.permission(trace[at + 2].reply.body) == None;
  }

  /**
   End to end: when the control comment is the request printed for a delegated decision, a submission is preceded, with
   nothing in between, by a read of protected main that gave the commit sealed in the decision, which the canary and the
   observer of the executor both saw; and it submits the head and the pull request of that request.
   */
  lemma CanaryFence(site: Site, j: Judge, trace: seq<Event>, from: nat, k: nat, t: Target,
                    evidence: IntegrationCapability.Evidence, policy: IntegrationCapability.Policy, decidedAt: int,
                    repository: string, pullRequest: int, head: string, text: string)
    requires Submitted(j, trace, from, k, t) && j == Judging(site)
    requires IntegrationCapability.BuildRequest(IntegrationCapability.Decide(Some(evidence), policy, decidedAt),
                                                repository, pullRequest, head) == Success(text)
    requires Answered(trace[from], GetComment(t.coordinates.comment)) && Get(trace[from].reply.body, Key.Body) == Str(text)
    ensures evidence.executor.Some? && evidence.executor.value.canaryMain == evidence.executor.value.main
    ensures 1 <= k < |trace| && Answered(trace[k - 1], GetMain) &&
            Get(trace[k - 1].reply.body, Key.Sha) == Str(evidence.executor.value.canaryMain)
    ensures trace[k].Exchanged? && trace[k].request == PutMerge(MergeRequest(repository, pullRequest, head, "merge_queue"))
  {
    SubmissionFenced(site, j, trace, from, k, t);
    AcceptedCommand(t.coordinates, trace[from].reply.body, t.actor, text);
    RequestCoordinates(evidence, policy, decidedAt, repository, pullRequest, head, text, t.coordinates);
  }

  lemma AcceptedCommand(c: Coordinates, body: Json, actor: string, text: string)
    requires ControlOk(body, c, actor) && Get(body, Key.Body) == Str(text)
    ensures c.pullRequest > 0 && Parse(text) == Some(Command(c.repository, c.pullRequest, c.head, c.main))
  {
  }

  lemma RequestCoordinates(evidence: IntegrationCapability.Evidence, policy: IntegrationCapability.Policy, decidedAt: int,
                           repository: string, pullRequest: int, head: string, text: string, c: Coordinates)
    requires IntegrationCapability.BuildRequest(IntegrationCapability.Decide(Some(evidence), policy, decidedAt),
                                                repository, pullRequest, head) == Success(text)
    requires c.pullRequest > 0 && Parse(text) == Some(Command(c.repository, c.pullRequest, c.head, c.main))
    ensures evidence.executor.Some? && evidence.executor.value.canaryMain == evidence.executor.value.main == c.main
    ensures c.repository == repository && c.pullRequest == pullRequest && c.head == head
  {
    IntegrationCapability.DelegatedExactly(Some(evidence), policy, decidedAt);
    IntegrationCapability.ForeignRequest(IntegrationCapability.Decide(Some(evidence), policy, decidedAt),
                                         repository, pullRequest, head);
    IntegrationCapability.RequestParses(Some(evidence), policy, decidedAt, repository, pullRequest, head);
  }

  /** For qualified coordinates the route never rejects, except for the length of the attempt id. */
  lemma QualifiedReachesSubmission(site: Site, j: Judge, inputs: Coordinates, c: Coordinates, now: nat)
    requires j == Judging(site) && j.normalize(inputs) == Some(c)
    ensures j.normalize(c) == Some(c) && c.comment > 0
    ensures j.request(c, now) ==
      if 3 <= |Decimal(c.comment)| + |Decimal(now)| <= 115
      then Some(MergeRequest(c.repository, c.pullRequest, c.head, "merge_queue")) else None
  {
    NormalizeNormal(c);
    QualifiedAdmittedExactly(c.repository, c.pullRequest, c.head, c.comment, now);
  }

  /** Outside Atlas the latest run of the gate on the exact head, as read by the qualification, succeeded. */
  lemma GateWasGreen(site: Site, j: Judge, trace: seq<Event>, from: nat, t: Target) returns (run: Json)
    requires j == Judging(site) && Qualified(j, trace, from, t) && t.coordinates.repository != ATLAS
    ensures from + 2 < |trace| && Answered(trace[from + 2], GetCheckRuns(t.coordinates.repository, t.coordinates.head))
    ensures var runs := ListItems(Get(trace[from + 2].reply.body, Key.CheckRuns));
      var gate := site.gate(t.coordinates.repository);
      run in runs && Succeeded(run) && IsGateRun(run, gate, t.coordinates.head) &&
      forall other | other in runs && IsGateRun(other, gate, t.coordinates.head) :: !Later(other, run, site.number)
  {
    var c := t.coordinates;
    assert j.gated(c);
    assert GateJudge(site)(trace[from + 2].reply.body, c) == Success(t.suite.value);
    run := GateAccepted(trace[from + 2].reply.body, site.gate(c.repository), c.head, site.number);
  }

  /** Every source workflow has a decisive run of the target that succeeded. */
  lemma WorkflowWasGreen(site: Site, j: Judge, trace: seq<Event>, from: nat, t: Target, k: nat) returns (i: nat, run: Json)
    requires j == Judging(site) && Qualified(j, trace, from, t) && k < |site.workflows(t.coordinates.repository)|
    ensures from < i < |trace| && Answered(trace[i], GetWorkflowRuns(t.coordinates.repository, t.coordinates.head, k))
    ensures Succeeded(run) && Relates(run, t.coordinates) &&
      Decisive(run, trace[i].reply.body, t.coordinates, site.workflows(t.coordinates.repository)[k], t.branch, t.suite, site.number)
  {
    JudgedWorkflows(site, t.coordinates);
    i := WorkflowAnswer(j, trace, from, t, k);
    JudgedWorkflow(site, trace[i].reply.body, t, k);
    run := WorkflowAccepted(trace[i].reply.body, t.coordinates, site.workflows(t.coordinates.repository)[k], t.branch, t.suite,
                            site.number);
  }

  lemma WorkflowAnswer(j: Judge, trace: seq<Event>, from: nat, t: Target, k: nat) returns (i: nat)
    requires Qualified(j, trace, from, t) && k < j.workflows(t.coordinates)
    ensures from < i < |trace| && WorkflowPassed(j, trace[i], t, k)
  {
    i := from + 2 + Gates(j, t.coordinates) + k;
  }

  lemma JudgedWorkflows(site: Site, c: Coordinates)
    ensures Judging(site).workflows(c) == |site.workflows(c.repository)|
  {
  }

  lemma JudgedWorkflow(site: Site, body: Json, t: Target, k: nat)
    requires k < |site.workflows(t.coordinates.repository)| && Judging(site).workflow(body, t, k) == None
    ensures WorkflowError(body, t.coordinates, site.workflows(t.coordinates.repository)[k], t.branch, t.suite, site.number) == None
  {
    assert WorkflowJudge(site)(body, t, k) == None;
  }

  /** An acceptance binds the queue and the exact head twice: in the answer itself and in the record read back by its UUID. */
  lemma AcceptanceBound(site: Site, j: Judge, trace: seq<Event>, k: nat, t: Target, receipt: Receipt, readback: Receipt)
    requires j == Judging(site) && Claims(j, trace, k, t, Accepted(receipt, readback))
    ensures |trace| == k + 4 && trace[k].reply.status == 202 && trace[k + 1] == Persisted(receipt, true)
    ensures Binds(trace[k].reply.body, t.coordinates.head) && DetailsUuid(trace[k].reply.body) == Some(receipt.uuid)
    ensures Answered(trace[k + 2], GetAsyncResult(t.coordinates.repository, t.coordinates.pullRequest, receipt.uuid)) &&
            Binds(trace[k + 2].reply.body, t.coordinates.head) && DetailsUuid(trace[k + 2].reply.body) == Some(receipt.uuid)
    ensures Answered(trace[k + 3], GetPull(t.coordinates.repository, t.coordinates.pullRequest)) &&
            StillTarget(trace[k + 3].reply.body, t.coordinates)
  {
  }

  /** What the routing rules call a receipt and an observation, filled from an accepted outcome. */
  function ReceiptOf(attempt: string, r: Receipt, observedAt: int): AsyncReceipt
  {
    AsyncReceipt(attempt, r.repository, r.pullRequest, r.base, r.head, r.action, 202, r.uuid, observedAt, r.sequence)
  }

  function ObservationOf(r: Receipt, observedAt: int): Observation
  {
    Observation(OBSERVATION_SOURCE, r.repository, r.pullRequest, r.base, r.head, r.uuid, observedAt, r.sequence)
  }

  /** An accepted outcome of the executor is a confirmed submission by the routing rules, as long as it is fresh. */
  lemma AcceptedConfirmed(site: Site, j: Judge, trace: seq<Event>, k: nat, t: Target, receipt: Receipt, readback: Receipt,
                          started: nat, submitted: int, read: int, now: int)
    requires j == Judging(site) && Claims(j, trace, k, t, Accepted(receipt, readback)) && Normal(t.coordinates)
    requires 3 <= |Decimal(t.coordinates.comment)| + |Decimal(started)| <= 115
    requires 0 <= submitted <= read <= now && now - submitted <= MAX_RECEIPT_AGE && now - read <= MAX_OBSERVATION_AGE
    ensures var c := t.coordinates;
      var attempt := ExecutorAttempt(c.repository, c.pullRequest, c.head, c.comment, started);
      VerifyTarget(attempt, ReceiptOf(attempt.id, receipt, submitted), ObservationOf(readback, read), now) == TargetConfirmed
  {
    var c := t.coordinates;
    AcceptanceBound(site, j, trace, k, t, receipt, readback);
    CanonicalShaped(Get(Get(trace[k].reply.body, Key.Details), Key.Uuid));
    BoundConfirmed(c, receipt, readback, started, submitted, read, now);
  }

  lemma BoundConfirmed(c: Coordinates, receipt: Receipt, readback: Receipt, started: nat, submitted: int, read: int, now: int)
    requires Normal(c) && BoundTo(receipt, c) && BoundTo(readback, c) && receipt.uuid == readback.uuid && UuidShaped(receipt.uuid)
    requires 0 < receipt.sequence < readback.sequence && 3 <= |Decimal(c.comment)| + |Decimal(started)| <= 115
    requires 0 <= submitted <= read <= now && now - submitted <= MAX_RECEIPT_AGE && now - read <= MAX_OBSERVATION_AGE
    ensures var attempt := ExecutorAttempt(c.repository, c.pullRequest, c.head, c.comment, started);
      VerifyTarget(attempt, ReceiptOf(attempt.id, receipt, submitted), ObservationOf(readback, read), now) == TargetConfirmed
  {
    AttemptIdExactly(c.comment, started);
  }

  lemma CanonicalShaped(v: Json)
    ensures var uuid := ServerUuid(v); uuid.Some? ==> UuidShaped(uuid.value)
  {
    var uuid := ServerUuid(v);
    if uuid.Some? {
      forall i | 0 <= i < |uuid.value|
        ensures if IsHyphen(i) then uuid.value[i] == '-' else IsHex(LowerChar(uuid.value[i]))
      {
      }
    }
  }
}
