/**
 The protocol of the merge-queue executor: qualification by reads, one fenced submission, and what may follow it.
 How a single answer is judged is a parameter here; `QueueChecks.Judging` is the judgement in use.
 */
module QueueProtocol {
  import opened Wrappers
  import opened SubmissionRouting
  import opened QueueServer

  /** The inputs of one execution. */
  datatype Coordinates = Coordinates(repository: string, pullRequest: int, head: string, comment: int, main: string)

  /** A qualified target: who asked for it, its branch, and the check suite of its gate. */
  datatype Target = Target(coordinates: Coordinates, actor: string, branch: string, suite: Option<Json>)

  /** How inputs and answers are judged. */
  datatype Judge = Judge(
    normalize: Coordinates -> Option<Coordinates>,
    control: (Json, Coordinates, string) -> bool,
    pull: (Json, Coordinates) -> Option<string>,
    gated: Coordinates -> bool,
    gate: (Json, Coordinates) -> Result<Json, Error>,
    workflows: Coordinates -> nat,
    workflow: (Json, Target, nat) -> Option<Error>,
    principal: (Json, string) -> bool,
    member: (int, Json, string) -> bool,
    permission: Json -> Option<Error>,
    request: (Coordinates, int) -> Option<MergeRequest>,
    main: (Json, string) -> bool,
    uuidGiven: Json -> bool,
    uuid: Json -> Option<string>,
    status: Json -> Option<string>,
    binds: (Json, string) -> bool,
    identity: (Json, Coordinates) -> bool)

  datatype Outcome =
    | Accepted(receipt: Receipt, readback: Receipt)
    | ReconciliationRequired(status: int, found: Option<Receipt>)

  // ---------------------------------------------------------------- what a trace must look like

  /** Only reads: no submission and no receipt. */
  ghost predicate Quiet(trace: seq<Event>, from: nat, to: nat)
  {
    to <= |trace| && forall k | from <= k < to :: trace[k].Exchanged? && !trace[k].request.PutMerge?
  }

  /** The request was answered with an object; `Answered` asks for status 200 as well. */
  predicate Replied(e: Event, request: Request)
  {
    e.Exchanged? && e.request == request && e.reply.Answer? && e.reply.body.Dict?
  }

  predicate Answered(e: Event, request: Request)
  {
    Replied(e, request) && e.reply.status == 200
  }

  predicate WorkflowPassed(j: Judge, e: Event, t: Target, k: nat)
  {
    Answered(e, GetWorkflowRuns(t.coordinates.repository, t.coordinates.head, k)) && j.workflow(e.reply.body, t, k) == None
  }

  ghost predicate WorkflowsPassed(j: Judge, trace: seq<Event>, from: nat, n: nat, t: Target)
  {
    from + n <= |trace| && forall i | from <= i < from + n :: WorkflowPassed(j, trace[i], t, i - from)
  }

  /** Atlas has no gate. */
  function Gates(j: Judge, c: Coordinates): nat
  {
    if j.gated(c) then 1 else 0
  }

  function QualificationLength(j: Judge, c: Coordinates): nat
  {
    2 + Gates(j, c) + j.workflows(c)
  }

  /** The gate, where there is one, and then all source workflows. */
  ghost predicate ChecksPassed(j: Judge, trace: seq<Event>, at: nat, t: Target)
  {
    var c := t.coordinates;
    at + Gates(j, c) + j.workflows(c) <= |trace| &&
    (if j.gated(c)
     then Answered(trace[at], GetCheckRuns(c.repository, c.head)) && t.suite.Some? &&
          j.gate(trace[at].reply.body, c) == Success(t.suite.value)
     else t.suite == None) &&
    WorkflowsPassed(j, trace, at + Gates(j, c), j.workflows(c), t)
  }

  /** The reads of a qualification, in order: control comment, pull request, gate, source workflows. */
  ghost predicate Qualified(j: Judge, trace: seq<Event>, from: nat, t: Target)
  {
    var c := t.coordinates;
    from + QualificationLength(j, c) <= |trace| &&
    Answered(trace[from], GetComment(c.comment)) && j.control(trace[from].reply.body, c, t.actor) &&
    Answered(trace[from + 1], GetPull(c.repository, c.pullRequest)) && j.pull(trace[from + 1].reply.body, c) == Some(t.branch) &&
    ChecksPassed(j, trace, from + 2, t)
  }

  /** The reads about the member of the organization in whose name the submission is made. */
  ghost predicate PrincipalPassed(j: Judge, trace: seq<Event>, at: nat, t: Target)
  {
    at + 3 <= |trace| &&
    Answered(trace[at], GetUser) && j.principal(trace[at].reply.body, t.actor) &&
    Replied(trace[at + 1], GetMembership) && trace[at + 1].reply.status in {200, 403, 404} &&
    j.member(trace[at + 1].reply.status, trace[at + 1].reply.body, t.actor) &&
    Answered(trace[at + 2], GetPermission(t.coordinates.repository, t.actor)) && j.permission(trace[at + 2].reply.body) == None
  }

  ghost predicate MainPassed(j: Judge, trace: seq<Event>, at: nat, t: Target)
  {
    at < |trace| && Answered(trace[at], GetMain) && j.main(trace[at].reply.body, t.coordinates.main)
  }

  /** The event at `k` is a submission for the target, and the one just before it read protected main as bound. */
  ghost predicate Fenced(j: Judge, trace: seq<Event>, k: nat, t: Target)
  {
    1 <= k < |trace| && MainPassed(j, trace, k - 1, t) && trace[k].Exchanged? && trace[k].request.PutMerge? &&
    exists now :: j.request(t.coordinates, now) == Some(trace[k].request.merge)
  }

  /** The UUID of an accepted submission. */
  function AcceptedUuid(j: Judge, e: Event): Option<string>
  {
    if e.Exchanged? && e.reply.Answer? && e.reply.body.Dict? && e.reply.status == 202 then j.uuid(e.reply.body) else None
  }

  /**
   After the submission at `k` there is no second one. A 202 with a UUID is persisted before anything else happens, and
   when that fails nothing else happens. Without such an answer no receipt is ever persisted.
   */
  ghost predicate Settled(j: Judge, trace: seq<Event>, k: nat)
    requires k < |trace|
  {
    var uuid := AcceptedUuid(j, trace[k]);
    if uuid.None? then Quiet(trace, k + 1, |trace|)
    else
      k + 1 < |trace| && trace[k + 1].Persisted? && trace[k + 1].receipt.uuid == uuid.value &&
      if trace[k + 1].stored then Quiet(trace, k + 2, |trace|) else |trace| == k + 2
  }

  /** The submission at `k`: a second qualification, the principal, the fence, and nothing but reads before it. */
  ghost predicate Submitted(j: Judge, trace: seq<Event>, from: nat, k: nat, t: Target)
  {
    k == from + QualificationLength(j, t.coordinates) + 4 && Qualified(j, trace, from, t) &&
    PrincipalPassed(j, trace, from + QualificationLength(j, t.coordinates), t) &&
    Quiet(trace, from, k) && Fenced(j, trace, k, t)
  }

  /** Everything from `from` on: reads only, or a submission with what may follow it. */
  ghost predicate Safe(j: Judge, trace: seq<Event>, from: nat, put: Option<nat>, t: Target)
  {
    match put
    case None => Quiet(trace, from, |trace|)
    case Some(k) => Submitted(j, trace, from, k, t) && Settled(j, trace, k)
  }

  /** The readback at `at`: the server's record of the request, then the pull request, both bound to the target. */
  ghost predicate ReadBackPassed(j: Judge, trace: seq<Event>, at: nat, t: Target, uuid: string)
  {
    var c := t.coordinates;
    at + 2 <= |trace| &&
    Answered(trace[at], GetAsyncResult(c.repository, c.pullRequest, uuid)) && j.binds(trace[at].reply.body, c.head) &&
    j.uuid(trace[at].reply.body) == Some(uuid) && j.status(trace[at].reply.body).Some? &&
    Answered(trace[at + 1], GetPull(c.repository, c.pullRequest)) && j.identity(trace[at + 1].reply.body, c)
  }

  ghost predicate ReadBack(j: Judge, trace: seq<Event>, at: nat, t: Target, r: Receipt)
  {
    ReadBackPassed(j, trace, at, t, r.uuid) && j.status(trace[at].reply.body) == Some(r.status) && BoundTo(r, t.coordinates)
  }

  predicate BoundTo(r: Receipt, c: Coordinates)
  {
    r == Receipt(c.repository, c.pullRequest, "main", c.head, "merge_queue", r.status, r.uuid, r.sequence)
  }

  /** What an outcome claims about the trace after the submission at `k`. */
  ghost predicate Claims(j: Judge, trace: seq<Event>, k: nat, t: Target, o: Outcome)
  {
    k < |trace| && trace[k].Exchanged? && trace[k].reply.Answer? &&
    match o
    case Accepted(receipt, readback) =>
      |trace| == k + 4 && AcceptedUuid(j, trace[k]) == Some(receipt.uuid) && j.binds(trace[k].reply.body, t.coordinates.head) &&
      trace[k + 1] == Persisted(receipt, true) && BoundTo(receipt, t.coordinates) &&
      ReadBack(j, trace, k + 2, t, readback) && readback.uuid == receipt.uuid && 0 < receipt.sequence < readback.sequence
    case ReconciliationRequired(status, found) =>
      trace[k].reply.status == status && (status == 200 || status == 409) &&
      (if j.uuidGiven(trace[k].reply.body)
       then found.Some? && |trace| == k + 3 && ReadBack(j, trace, k + 1, t, found.value) &&
            j.uuid(trace[k].reply.body) == Some(found.value.uuid)
       else found == None && |trace| == k + 2 &&
            Answered(trace[k + 1], GetPull(t.coordinates.repository, t.coordinates.pullRequest)) &&
            j.identity(trace[k + 1].reply.body, t.coordinates))
  }

  lemma QualifiedLater(j: Judge, trace: seq<Event>, longer: seq<Event>, from: nat, t: Target)
    requires Qualified(j, trace, from, t) && trace <= longer
    ensures Qualified(j, longer, from, t)
  {
    var at := from + 2 + Gates(j, t.coordinates);
    forall i | at <= i < at + j.workflows(t.coordinates)
      ensures WorkflowPassed(j, longer[i], t, i - at)
    {
      assert longer[i] == trace[i];
    }
  }

  lemma PrincipalLater(j: Judge, trace: seq<Event>, longer: seq<Event>, at: nat, t: Target)
    requires PrincipalPassed(j, trace, at, t) && trace <= longer
    ensures PrincipalPassed(j, longer, at, t)
  {
  }

  /** Why a 202 is no acceptance: its answer lacks something, or it could not be persisted or read back. */
  ghost predicate Unaccepted(j: Judge, trace: seq<Event>, k: nat, t: Target)
    requires k < |trace| && trace[k].Exchanged? && trace[k].reply.Answer?
  {
    var body := trace[k].reply.body;
    j.uuid(body).None? || j.status(body).None? || !j.binds(body, t.coordinates.head) ||
    (k + 1 < |trace| && trace[k + 1].Persisted? && !trace[k + 1].stored) ||
    !ReadBackPassed(j, trace, k + 2, t, j.uuid(body).value)
  }

  /** Why a 200 or 409 cannot even be reconciled. */
  ghost predicate Unreconciled(j: Judge, trace: seq<Event>, k: nat, t: Target)
    requires k < |trace| && trace[k].Exchanged? && trace[k].reply.Answer?
  {
    var body := trace[k].reply.body;
    if j.uuidGiven(body) then j.uuid(body).None? || !ReadBackPassed(j, trace, k + 1, t, j.uuid(body).value)
    else
      !(k + 1 < |trace| && Answered(trace[k + 1], GetPull(t.coordinates.repository, t.coordinates.pullRequest)) &&
        j.identity(trace[k + 1].reply.body, t.coordinates))
  }

  /** Why the submission at `k` comes to nothing: its answer is none to settle, or what has to follow it did not. */
  ghost predicate Unsettled(j: Judge, trace: seq<Event>, k: nat, t: Target)
  {
    k < |trace| && trace[k].Exchanged? &&
    var reply := trace[k].reply;
    if !reply.Answer? || !reply.body.Dict? || reply.status !in {200, 202, 409} then true
    else if reply.status == 202 then Unaccepted(j, trace, k, t)
    else Unreconciled(j, trace, k, t)
  }

  // ---------------------------------------------------------------- the executor

  class Executor {
    const github: Connection
    const judge: Judge

    constructor (github: Connection, judge: Judge)
      ensures this.github == github && this.judge == judge
    {
      this.github, this.judge := github, judge;
    }

    /** The event that triggered the run names a trusted actor. */
    predicate Trusted()
    {
      github.association in {"OWNER", "MEMBER"} && github.actor != ""
    }

    method VerifyControl(c: Coordinates) returns (r: Result<string, Error>)
      modifies github`trace
      ensures old(github.trace) <= github.trace && Quiet(github.trace, |old(github.trace)|, |github.trace|)
      ensures |github.trace| == |old(github.trace)| + if Trusted() then 1 else 0
      ensures r.Success? <==>
        Trusted() && Answered(github.trace[|old(github.trace)|], GetComment(c.comment)) &&
        judge.control(github.trace[|old(github.trace)|].reply.body, c, github.actor)
      ensures r.Success? ==> r.value == github.actor
    {
      if !Trusted() {
        return Failure(ValueError);
      }
      var reply := github.Rest(GetComment(c.comment), {200});
      if reply.Failure? {
        return Failure(reply.error);
      }
      r := if judge.control(reply.value.body, c, github.actor) then Success(github.actor) else Failure(ValueError);
    }

    method ReadPull(c: Coordinates) returns (r: Result<string, Error>)
      modifies github`trace
      ensures old(github.trace) <= github.trace && Quiet(github.trace, |old(github.trace)|, |github.trace|)
      ensures r.Success? ==>
        |github.trace| == |old(github.trace)| + 1 &&
        Answered(github.trace[|old(github.trace)|], GetPull(c.repository, c.pullRequest)) &&
        judge.pull(github.trace[|old(github.trace)|].reply.body, c) == Some(r.value)
      ensures r.Failure? ==>
        |github.trace| == |old(github.trace)| + 1 &&
        !(Answered(github.trace[|old(github.trace)|], GetPull(c.repository, c.pullRequest)) &&
          judge.pull(github.trace[|old(github.trace)|].reply.body, c).Some?)
    {
      var reply := github.Rest(GetPull(c.repository, c.pullRequest), {200});
      if reply.Failure? {
        return Failure(reply.error);
      }
      var branch := judge.pull(reply.value.body, c);
      r := if branch.Some? then Success(branch.value) else Failure(ValueError);
    }

    /** The check suite of the required gate, where there is one. */
    method ReadGate(c: Coordinates) returns (r: Result<Option<Json>, Error>)
      modifies github`trace
      ensures old(github.trace) <= github.trace && Quiet(github.trace, |old(github.trace)|, |github.trace|)
      ensures r.Success? ==> |github.trace| == |old(github.trace)| + Gates(judge, c)
      ensures r.Success? && !judge.gated(c) ==> r.value == None
      ensures r.Success? && judge.gated(c) ==>
        Answered(github.trace[|old(github.trace)|], GetCheckRuns(c.repository, c.head)) && r.value.Some? &&
        judge.gate(github.trace[|old(github.trace)|].reply.body, c) == Success(r.value.value)
      ensures r.Failure? ==>
        judge.gated(c) && |github.trace| == |old(github.trace)| + 1 &&
        !(Answered(github.trace[|old(github.trace)|], GetCheckRuns(c.repository, c.head)) &&
          judge.gate(github.trace[|old(github.trace)|].reply.body, c).Success?)
    {
      if !judge.gated(c) {
        return Success(None);
      }
      var reply := github.Rest(GetCheckRuns(c.repository, c.head), {200});
      if reply.Failure? {
        return Failure(reply.error);
      }
      var suite := judge.gate(reply.value.body, c);
      r := if suite.Success? then Success(Some(suite.value)) else Failure(suite.error);
    }

    method ReadWorkflows(t: Target) returns (r: Result<(), Error>)
      modifies github`trace
      ensures old(github.trace) <= github.trace && Quiet(github.trace, |old(github.trace)|, |github.trace|)
      ensures r.Success? ==>
        |github.trace| == |old(github.trace)| + judge.workflows(t.coordinates) &&
        WorkflowsPassed(judge, github.trace, |old(github.trace)|, judge.workflows(t.coordinates), t)
      ensures r.Failure? ==> !WorkflowsPassed(judge, github.trace, |old(github.trace)|, judge.workflows(t.coordinates), t)
    {
      ghost var from := |github.trace|;
      for i := 0 to judge.workflows(t.coordinates)
        invariant old(github.trace) <= github.trace && Quiet(github.trace, from, |github.trace|) && |github.trace| == from + i
        invariant WorkflowsPassed(judge, github.trace, from, i, t)
      {
        var reply := github.Rest(GetWorkflowRuns(t.coordinates.repository, t.coordinates.head, i), {200});
        if reply.Failure? {
          return Failure(reply.error);
        }
        var error := judge.workflow(reply.value.body, t, i);
        if error.Some? {
          return Failure(error.value);
        }
      }
      r := Success(());
    }

    /** The gate and the workflows of a target whose comment and pull request have passed. */
    method ReadChecks(c: Coordinates, actor: string, branch: string) returns (r: Result<Target, Error>)
      modifies github`trace
      ensures old(github.trace) <= github.trace && Quiet(github.trace, |old(github.trace)|, |github.trace|)
      ensures r.Success? ==>
        r.value.coordinates == c && r.value.actor == actor && r.value.branch == branch &&
        |github.trace| == |old(github.trace)| + Gates(judge, c) + judge.workflows(c) &&
        ChecksPassed(judge, github.trace, |old(github.trace)|, r.value)
      ensures r.Failure? ==>
        forall t: Target {:trigger ChecksPassed(judge, github.trace, |old(github.trace)|, t)} |
          t.coordinates == c && t.branch == branch && t.actor == actor ::
          !ChecksPassed(judge, github.trace, |old(github.trace)|, t)
    {
      var suite := ReadGate(c);
      if suite.Failure? {
        return Failure(suite.error);
      }
      var target := Target(c, actor, branch, suite.value);
      var workflows := ReadWorkflows(target);
      r := if workflows.Success? then Success(target) else Failure(workflows.error);
    }

    /** No target with these inputs and this actor has passed the reads. */
    ghost predicate Unqualified(trace: seq<Event>, from: nat, inputs: Coordinates)
    {
      !Trusted() ||
      forall t: Target {:trigger Qualified(judge, trace, from, t)} |
        judge.normalize(inputs) == Some(t.coordinates) && t.actor == github.actor :: !Qualified(judge, trace, from, t)
    }

    /** Qualifies the target by reads alone. */
    method Qualify(inputs: Coordinates) returns (r: Result<Target, Error>)
      modifies github`trace
      ensures old(github.trace) <= github.trace && Quiet(github.trace, |old(github.trace)|, |github.trace|)
      ensures r.Success? ==>
        judge.normalize(inputs) == Some(r.value.coordinates) && r.value.actor == github.actor &&
        |github.trace| == |old(github.trace)| + QualificationLength(judge, r.value.coordinates) &&
        Qualified(judge, github.trace, |old(github.trace)|, r.value)
      ensures r.Failure? ==> Unqualified(github.trace, |old(github.trace)|, inputs)
    {
      var normal := judge.normalize(inputs);
      if normal.None? {
        return Failure(ValueError);
      }
      var c := normal.value;
      var actor := VerifyControl(c);
      if actor.Failure? {
        return Failure(actor.error);
      }
      var branch := ReadPull(c);
      if branch.Failure? {
        return Failure(branch.error);
      }
      r := ReadChecks(c, actor.value, branch.value);
    }

    /** Reads who the mutation credential belongs to, and whether that member may integrate into the target. */
    method CheckPrincipal(t: Target) returns (r: Result<(), Error>)
      modifies github`trace
      ensures old(github.trace) <= github.trace && Quiet(github.trace, |old(github.trace)|, |github.trace|)
      ensures r.Success? ==>
        |github.trace| == |old(github.trace)| + 3 && PrincipalPassed(judge, github.trace, |old(github.trace)|, t)
      ensures r.Failure? ==> !PrincipalPassed(judge, github.trace, |old(github.trace)|, t)
    {
      var user := github.Rest(GetUser, {200});
      if user.Failure? {
        return Failure(user.error);
      }
      if !judge.principal(user.value.body, t.actor) {
        return Failure(ExecutorError);
      }
      var membership := github.Rest(GetMembership, {200, 403, 404});
      if membership.Failure? {
        return Failure(membership.error);
      }
      if !judge.member(membership.value.status, membership.value.body, t.actor) {
        return Failure(ExecutorError);
      }
      var permission := github.Rest(GetPermission(t.coordinates.repository, t.actor), {200});
      if permission.Failure? {
        return Failure(permission.error);
      }
      var error := judge.permission(permission.value.body);
      r := if error.Some? then Failure(error.value) else Success(());
    }

    /** The fence and the submission itself: protected main is read, compared, and only then the request is sent. */
    method SendFenced(t: Target, merge: MergeRequest, ghost now: int) returns (r: Result<Reply, Error>, ghost put: Option<nat>)
      requires judge.request(t.coordinates, now) == Some(merge)
      modifies github`trace
      ensures old(github.trace) <= github.trace
      ensures put.None? ==>
        r.Failure? && Quiet(github.trace, |old(github.trace)|, |github.trace|) &&
        !MainPassed(judge, github.trace, |old(github.trace)|, t)
      ensures put.Some? ==>
        put.value == |old(github.trace)| + 1 && |github.trace| == put.value + 1 &&
        Quiet(github.trace, |old(github.trace)|, put.value) && Fenced(judge, github.trace, put.value, t)
      ensures put.Some? && r.Failure? ==>
        AcceptedUuid(judge, github.trace[put.value]).None? && Unsettled(judge, github.trace, put.value, t)
      ensures r.Success? ==>
        put.Some? && r.value == github.trace[put.value].reply && r.value.Answer? && r.value.body.Dict? &&
        r.value.status in {200, 202, 400, 403, 404, 409, 422}
    {
      put := None;
      var main := github.Rest(GetMain, {200});
      if main.Failure? {
        return Failure(main.error), put;
      }
      if !judge.main(main.value.body, t.coordinates.main) {
        return Failure(ExecutorError), put;
      }
      put := Some(|github.trace|);
      r := github.Rest(PutMerge(merge), {200, 202, 400, 403, 404, 409, 422});
    }

    /** Reads the server's record of the request back, and the pull request after it. */
    method ReadBackRequest(t: Target, uuid: string, sequence: ExecutorSequence, prior: nat) returns (r: Result<Receipt, Error>)
      modifies github`trace, sequence
      ensures old(github.trace) <= github.trace && Quiet(github.trace, |old(github.trace)|, |github.trace|)
      ensures r.Success? ==>
        |github.trace| == |old(github.trace)| + 2 && ReadBack(judge, github.trace, |old(github.trace)|, t, r.value) &&
        r.value.uuid == uuid && r.value.sequence > prior && r.value.sequence == sequence.value
      ensures r.Failure? ==>
        !ReadBackPassed(judge, github.trace, |old(github.trace)|, t, uuid) || old(sequence.value) < prior
    {
      var c := t.coordinates;
      var record := github.Rest(GetAsyncResult(c.repository, c.pullRequest, uuid), {200});
      if record.Failure? {
        return Failure(record.error);
      }
      var status := judge.status(record.value.body);
      if status.None? || judge.uuid(record.value.body) != Some(uuid) || !judge.binds(record.value.body, c.head) {
        return Failure(ExecutorError);
      }
      var pull := github.Rest(GetPull(c.repository, c.pullRequest), {200});
      if pull.Failure? {
        return Failure(pull.error);
      }
      if !judge.identity(pull.value.body, c) {
        return Failure(ExecutorError);
      }
      var n := sequence.Next();
      if n <= prior {
        return Failure(ExecutorError);
      }
      r := Success(Receipt(c.repository, c.pullRequest, "main", c.head, "merge_queue", status.value, uuid, n));
    }

    /** After a 202: persist the causal handle first, then compare the rest of the answer, then read back. */
    method SettleAccepted(t: Target, reply: Reply, sequence: ExecutorSequence) returns (r: Result<Outcome, Error>)
      requires github.trace != [] && github.trace[|github.trace| - 1].Exchanged? && github.trace[|github.trace| - 1].reply == reply
      requires reply.Answer? && reply.body.Dict? && reply.status == 202
      modifies github`trace, sequence
      ensures old(github.trace) <= github.trace && Settled(judge, github.trace, |old(github.trace)| - 1)
      ensures r.Success? ==> r.value.Accepted? && Claims(judge, github.trace, |old(github.trace)| - 1, t, r.value)
      ensures r.Failure? <==> Unaccepted(judge, github.trace, |old(github.trace)| - 1, t)
    {
      var c := t.coordinates;
      var uuid := judge.uuid(reply.body);
      if uuid.None? {
        return Failure(ExecutorError);
      }
      var status := judge.status(reply.body);
      var n := sequence.Next();
      var receipt := Receipt(c.repository, c.pullRequest, "main", c.head, "merge_queue",
                             if status.Some? then status.value else "http_202_accepted", uuid.value, n);
      var stored := github.Persist(receipt);
      if !stored || status.None? || !judge.binds(reply.body, c.head) {
        return Failure(ExecutorError);
      }
      var readback := ReadBackRequest(t, uuid.value, sequence, n);
      r := if readback.Success? then Success(Accepted(receipt, readback.value)) else Failure(readback.error);
    }

    /** After a 200 or 409: only reads, and never a receipt of acceptance. */
    method Reconcile(t: Target, reply: Reply, sequence: ExecutorSequence) returns (r: Result<Outcome, Error>)
      requires github.trace != [] && github.trace[|github.trace| - 1].Exchanged? && github.trace[|github.trace| - 1].reply == reply
      requires reply.Answer? && reply.body.Dict? && (reply.status == 200 || reply.status == 409)
      modifies github`trace, sequence
      ensures old(github.trace) <= github.trace && Settled(judge, github.trace, |old(github.trace)| - 1)
      ensures r.Success? ==>
        r.value.ReconciliationRequired? && Claims(judge, github.trace, |old(github.trace)| - 1, t, r.value)
      ensures r.Failure? <==> Unreconciled(judge, github.trace, |old(github.trace)| - 1, t)
    {
      var c := t.coordinates;
      if judge.uuidGiven(reply.body) {
        var uuid := judge.uuid(reply.body);
        if uuid.None? {
          return Failure(ExecutorError);
        }
        var found := ReadBackRequest(t, uuid.value, sequence, 0);
        r := if found.Success? then Success(ReconciliationRequired(reply.status, Some(found.value))) else Failure(found.error);
      } else {
        var pull := github.Rest(GetPull(c.repository, c.pullRequest), {200});
        if pull.Failure? {
          return Failure(pull.error);
        }
        r := if judge.identity(pull.value.body, c) then Success(ReconciliationRequired(reply.status, None)) else Failure(ValueError);
      }
    }

    /** Constructs the request, sends it behind the fence, and settles what the answer means. */
    method SendAndSettle(t: Target) returns (r: Result<Outcome, Error>, ghost put: Option<nat>)
      modifies github`trace
      ensures old(github.trace) <= github.trace
      ensures put.None? ==>
        r.Failure? && Quiet(github.trace, |old(github.trace)|, |github.trace|) &&
        (judge.request(t.coordinates, github.clock(old(github.trace))) == None ||
         !MainPassed(judge, github.trace, |old(github.trace)|, t))
      ensures put.Some? ==>
        put.value == |old(github.trace)| + 1 < |github.trace| && Quiet(github.trace, |old(github.trace)|, put.value) &&
        Fenced(judge, github.trace, put.value, t) && Settled(judge, github.trace, put.value)
      ensures r.Success? ==> put.Some? && Claims(judge, github.trace, put.value, t, r.value)
      ensures put.Some? ==> (r.Failure? <==> Unsettled(judge, github.trace, put.value, t))
    {
      put := None;
      var now := github.clock(github.trace);
      var merge := judge.request(t.coordinates, now);
      if merge.None? {
        return Failure(ExecutorError), put;
      }
      var reply;
      reply, put := SendFenced(t, merge.value, now);
      if reply.Failure? {
        return Failure(reply.error), put;
      }
      var sequence := new ExecutorSequence();
      if reply.value.status == 202 {
        r := SettleAccepted(t, reply.value, sequence);
      } else if reply.value.status == 200 || reply.value.status == 409 {
        r := Reconcile(t, reply.value, sequence);
      } else {
        r := Failure(ExecutorError);
      }
    }

    /** Why nothing was sent for a qualified target: an answer was not as it should be, or no request could be built then. */
    ghost predicate Held(trace: seq<Event>, at: nat, t: Target)
    {
      !PrincipalPassed(judge, trace, at, t) || !MainPassed(judge, trace, at + 3, t) ||
      exists n :: 0 <= n <= |trace| && judge.request(t.coordinates, github.clock(trace[..n])) == None
    }

    /** Checks the principal of a qualified target and makes at most one submission. */
    method SubmitQualified(t: Target) returns (r: Result<Outcome, Error>, ghost put: Option<nat>)
      modifies github`trace
      ensures old(github.trace) <= github.trace
      ensures put.None? ==>
        r.Failure? && Quiet(github.trace, |old(github.trace)|, |github.trace|) && Held(github.trace, |old(github.trace)|, t)
      ensures put.Some? ==>
        put.value == |old(github.trace)| + 4 < |github.trace| && PrincipalPassed(judge, github.trace, |old(github.trace)|, t) &&
        Quiet(github.trace, |old(github.trace)|, put.value) && Fenced(judge, github.trace, put.value, t) &&
        Settled(judge, github.trace, put.value)
      ensures r.Success? ==> put.Some? && Claims(judge, github.trace, put.value, t, r.value)
      ensures put.Some? ==> (r.Failure? <==> Unsettled(judge, github.trace, put.value, t))
    {
      put := None;
      ghost var first := github.trace;
      var principal := CheckPrincipal(t);
      if principal.Failure? {
        return Failure(principal.error), put;
      }
      ghost var second := github.trace;
      r, put := SendAndSettle(t);
      PrincipalLater(judge, second, github.trace, |first|, t);
      assert github.trace[..|second|] == second;
    }

    /** Why nothing was sent: the inputs did not qualify, or the target that did was held. */
    ghost predicate Withheld(trace: seq<Event>, from: nat, inputs: Coordinates, t: Target)
    {
      Unqualified(trace, from, inputs) ||
      (Qualified(judge, trace, from, t) && Held(trace, from + QualificationLength(judge, t.coordinates), t))
    }

    /** Qualifies again, checks the principal, and makes at most one submission. */
    method Submit(inputs: Coordinates) returns (r: Result<Outcome, Error>, ghost put: Option<nat>, ghost t: Target)
      modifies github`trace
      ensures old(github.trace) <= github.trace
      ensures Safe(judge, github.trace, |old(github.trace)|, put, t)
      ensures put.Some? ==> judge.normalize(inputs) == Some(t.coordinates) && t.actor == github.actor
      ensures r.Success? ==> put.Some? && Claims(judge, github.trace, put.value, t, r.value)
      ensures put.Some? ==> (r.Failure? <==> Unsettled(judge, github.trace, put.value, t))
      ensures put.None? ==> r.Failure? && Withheld(github.trace, |old(github.trace)|, inputs, t)
    {
      hide Unsettled, Claims, Settled, Unqualified, Held;
      put, t := None, Target(inputs, "", "", None);
      var qualified := Qualify(inputs);
      if qualified.Failure? {
        return Failure(qualified.error), put, t;
      }
      var target := qualified.value;
      t := target;
      ghost var first := github.trace;
      r, put := SubmitQualified(target);
      QualifiedLater(judge, first, github.trace, |old(github.trace)|, target);
      assert put.None? ==> Quiet(github.trace, |old(github.trace)|, |github.trace|);
    }

    /** One execution of the program: a first qualification, then the submission. */
    method Execute(inputs: Coordinates) returns (r: Result<Outcome, Error>, ghost put: Option<nat>, ghost mid: nat, ghost t: Target)
      modifies github`trace
      ensures old(github.trace) <= github.trace && |old(github.trace)| <= mid
      ensures Quiet(github.trace, |old(github.trace)|, mid) && Safe(judge, github.trace, mid, put, t)
      ensures put.Some? ==>
        t.actor == github.actor &&
        exists c :: judge.normalize(inputs) == Some(c) && judge.normalize(c) == Some(t.coordinates)
      ensures r.Success? ==> put.Some? && Claims(judge, github.trace, put.value, t, r.value)
      ensures put.Some? ==> (r.Failure? <==> Unsettled(judge, github.trace, put.value, t))
      ensures put.None? ==>
        r.Failure? &&
        (Unqualified(github.trace, |old(github.trace)|, inputs) ||
         exists c :: judge.normalize(inputs) == Some(c) && Withheld(github.trace, mid, c, t))
    {
      put, t := None, Target(inputs, "", "", None);
      var qualified := Qualify(inputs);
      mid := |github.trace|;
      if qualified.Failure? {
        return Failure(qualified.error), put, mid, t;
      }
      r, put, t := Submit(qualified.value.coordinates);
    }
  }
}
