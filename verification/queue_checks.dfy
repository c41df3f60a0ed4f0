/** How the merge-queue executor judges its inputs and the answers it gets. */
module QueueChecks {
  import opened Wrappers
  import opened Strings
  import opened ControlCommand
  import opened SubmissionRouting
  import opened QueueServer
  import opened QueueProtocol

  const ATLAS := "Oteryn/Oteryn-Atlas"

  datatype Workflow = Workflow(path: string, event: string, id: int)

  /** What the routing policy says about a target, and how Python's `int` converts ids that are no integers. */
  datatype Site = Site(gate: string -> string, workflows: string -> seq<Workflow>, number: Json -> Option<int>)

  predicate Normal(c: Coordinates)
  {
    AllowedRepository(c.repository) && c.pullRequest > 0 && IsSha(c.head) && c.comment > 0 && IsSha(c.main)
  }

  function Normalize(c: Coordinates): (r: Option<Coordinates>)
    ensures r.Some? ==> Normal(r.value)
  {
    var n := c.(repository := Strip(c.repository, Space), head := Strip(c.head, Space), main := Strip(c.main, Space));
    if Normal(n) then Some(n) else None
  }

  lemma {:induction false} StripNothing(s: string)
    requires s != "" && !IsSpace(s[0]) && !IsSpace(s[|s| - 1])
    ensures Strip(s, Space) == s
  {
  }

  /** Normalizing again changes nothing. */
  lemma NormalizeNormal(c: Coordinates)
    requires Normal(c)
    ensures Normalize(c) == Some(c)
  {
    assert IsHex(c.head[0]) && IsHex(c.head[39]) && IsHex(c.main[0]) && IsHex(c.main[39]);
    StripNothing(c.repository);
    StripNothing(c.head);
    StripNothing(c.main);
  }

  const CONTROL_ISSUE := "https://api.github.com/repos/Oteryn/Oteryn/issues/196"

  /** The comment is a command on the control issue for exactly these coordinates, written by the triggering actor. */
  predicate ControlOk(body: Json, c: Coordinates, actor: string)
  {
    Get(body, Key.IssueUrl) == Str(CONTROL_ISSUE) &&
    Get(body, Key.Body).Str? && c.pullRequest > 0 &&
    Parse(Get(body, Key.Body).s) == Some(Command(c.repository, c.pullRequest, c.head, c.main)) &&
    actor != "" && Get(Get(body, Key.User), Key.Login) == Str(actor)
  }

  predicate IdentityOk(pull: Json, repository: string, head: string, openReady: bool)
  {
    (openReady ==>
      Get(pull, Key.State) == Str("open") && Get(pull, Key.Merged) != Bool(true) && Get(pull, Key.Draft) == Bool(false)) &&
    Get(Get(pull, Key.Base), Key.Ref) == Str("main") &&
    LowerText(Get(Get(pull, Key.Head), Key.Sha)) == head &&
    Get(Get(Get(pull, Key.Head), Key.Repo), Key.FullName) == Str(repository)
  }

  // ---------------------------------------------------------------- the latest run

  predicate Falsy(v: Json)
  {
    v == Null || v == Bool(false) || v == Int(0) || v == Float(0.0) || v == Str("") || v == List([]) || v == Dict(map[])
  }

  /** `int(run.get("id") or 0)`; the oracle covers conversions from strings and floats, which may raise. */
  function RunId(run: Json, number: Json -> Option<int>): Option<int>
  {
    var v := Get(run, Key.Id);
    if Falsy(v) then Some(0) else if v.Int? then Some(v.i) else if v.Bool? then Some(1) else number(v)
  }

  predicate Numbered(runs: seq<Json>, number: Json -> Option<int>)
  {
    forall run | run in runs :: RunId(run, number).Some?
  }

  /** Python's `max(runs, key=...)`: the first run with the greatest id. */
  function Latest(runs: seq<Json>, number: Json -> Option<int>): Json
    requires runs != [] && Numbered(runs, number)
  {
    if |runs| == 1 then runs[0] else
      var n := |runs| - 1;
      NumberedFront(runs, number);
      var before := Latest(runs[..n], number);
      if Later(runs[n], before, number) then runs[n] else before
  }

  lemma NumberedFront(runs: seq<Json>, number: Json -> Option<int>)
    requires |runs| > 1 && Numbered(runs, number)
    ensures Numbered(runs[..|runs| - 1], number)
  {
  }

  /** The id of `run` is greater than that of `other`. */
  predicate Later(run: Json, other: Json, number: Json -> Option<int>)
  {
    RunId(run, number).Some? && RunId(other, number).Some? && RunId(run, number).value > RunId(other, number).value
  }

  lemma {:induction false} LatestExactly(runs: seq<Json>, number: Json -> Option<int>)
    requires runs != [] && Numbered(runs, number)
    ensures Latest(runs, number) in runs
    ensures forall run | run in runs :: !Later(run, Latest(runs, number), number)
  {
    if |runs| > 1 {
      var n := |runs| - 1;
      NumberedFront(runs, number);
      LatestExactly(runs[..n], number);
      forall run | run in runs
        ensures run in runs[..n] || run == runs[n]
        ensures RunId(run, number).Some?
      {
      }
    }
  }

  function Filter(runs: seq<Json>, keep: Json -> bool): seq<Json>
  {
    if runs == [] then [] else
      var n := |runs| - 1;
      Filter(runs[..n], keep) + if keep(runs[n]) then [runs[n]] else []
  }

  lemma {:induction false} FilterExactly(runs: seq<Json>, keep: Json -> bool)
    ensures forall run :: run in Filter(runs, keep) <==> run in runs && keep(run)
  {
    if runs != [] {
      var n := |runs| - 1;
      FilterExactly(runs[..n], keep);
      forall run
        ensures run in runs <==> run in runs[..n] || run == runs[n]
      {
      }
    }
  }

  predicate Succeeded(run: Json)
  {
    Get(run, Key.Status) == Str("completed") && Get(run, Key.Conclusion) == Str("success")
  }

  // ---------------------------------------------------------------- the gate

  /** A run of the gate on the exact head by GitHub Actions, with a check suite. */
  predicate IsGateRun(run: Json, gate: string, head: string)
  {
    Get(run, Key.Name) == Str(gate) && LowerText(Get(run, Key.HeadSha)) == head &&
    Get(Get(run, Key.App), Key.Slug) == Str("github-actions") && SuiteId(run).Some?
  }

  function SuiteId(run: Json): Option<Json>
  {
    var id := Get(Get(run, Key.CheckSuite), Key.Id);
    if id.Int? || id.Bool? then Some(id) else None
  }

  function OfGate(gate: string, head: string): Json -> bool
  {
    run => IsGateRun(run, gate, head)
  }

  function GateRuns(payload: Json, gate: string, head: string): seq<Json>
  {
    Filter(ListItems(Get(payload, Key.CheckRuns)), OfGate(gate, head))
  }

  /** The check suite of the latest gate run, which must have succeeded. */
  function GateSuite(payload: Json, gate: string, head: string, number: Json -> Option<int>): Result<Json, Error>
  {
    var runs := GateRuns(payload, gate, head);
    if runs == [] then Failure(ValueError)
    else if !Numbered(runs, number) then Failure(Crash)
    else if !Succeeded(Latest(runs, number)) then Failure(ValueError)
    else
      GateRunSuite(payload, gate, head, number);
      Success(SuiteId(Latest(runs, number)).value)
  }

  lemma GateRunSuite(payload: Json, gate: string, head: string, number: Json -> Option<int>)
    requires GateRuns(payload, gate, head) != [] && Numbered(GateRuns(payload, gate, head), number)
    ensures SuiteId(Latest(GateRuns(payload, gate, head), number)).Some?
  {
    LatestExactly(GateRuns(payload, gate, head), number);
    FilterExactly(ListItems(Get(payload, Key.CheckRuns)), OfGate(gate, head));
  }

  // ---------------------------------------------------------------- source workflows

  predicate AtlasTarget(c: Coordinates, w: Workflow)
  {
    c.repository == ATLAS && w.event == "pull_request_target"
  }

  /** A run of the workflow that belongs to the target. */
  predicate IsSourceRun(run: Json, c: Coordinates, w: Workflow, branch: string, suite: Option<Json>)
  {
    EqualsInt(Get(run, Key.WorkflowId), w.id) && Get(run, Key.Path) == Str(w.path) && Get(run, Key.Event) == Str(w.event) &&
    Get(Get(run, Key.HeadRepository), Key.FullName) == Str(c.repository) &&
    (AtlasTarget(c, w) || (Get(run, Key.HeadBranch) == Str(branch) && LowerText(Get(run, Key.HeadSha)) == c.head)) &&
    (suite.None? || SameNumber(Get(run, Key.CheckSuiteId), suite.value)) &&
    (AtlasTarget(c, w) ==> exists item | item in ListItems(Get(run, Key.PullRequests)) :: RelatesExactly(item, c))
  }

  predicate RelatesExactly(item: Json, c: Coordinates)
  {
    var sha := Get(Get(item, Key.Head), Key.Sha);
    EqualsInt(Get(item, Key.Number), c.pullRequest) && sha.Str? && Lower(Strip(sha.s, Space)) == c.head
  }

  predicate Relates(run: Json, c: Coordinates)
  {
    var relations := Get(run, Key.PullRequests);
    relations.List? &&
    (relations.items == [] || exists item | item in relations.items :: EqualsInt(Get(item, Key.Number), c.pullRequest))
  }

  function Counts(c: Coordinates, w: Workflow, branch: string, suite: Option<Json>): Json -> bool
  {
    run => IsSourceRun(run, c, w, branch, suite) && (AtlasTarget(c, w) ==> Succeeded(run))
  }

  /** The runs among which the latest one decides; for Atlas only successful ones count. */
  function Candidates(payload: Json, c: Coordinates, w: Workflow, branch: string, suite: Option<Json>): seq<Json>
  {
    Filter(ListItems(Get(payload, Key.WorkflowRuns)), Counts(c, w, branch, suite))
  }

  function WorkflowError(payload: Json, c: Coordinates, w: Workflow, branch: string, suite: Option<Json>,
                         number: Json -> Option<int>): Option<Error>
  {
    var runs := Candidates(payload, c, w, branch, suite);
    if runs == [] then Some(ValueError)
    else if !Numbered(runs, number) then Some(Crash)
    else if !Relates(Latest(runs, number), c) || !Succeeded(Latest(runs, number)) then Some(ValueError)
    else None
  }

  /** The run belongs to the target, and no other run that counts has a greater id. */
  ghost predicate Decisive(run: Json, payload: Json, c: Coordinates, w: Workflow, branch: string, suite: Option<Json>,
                           number: Json -> Option<int>)
  {
    run in ListItems(Get(payload, Key.WorkflowRuns)) && IsSourceRun(run, c, w, branch, suite) &&
    forall other | other in ListItems(Get(payload, Key.WorkflowRuns)) && IsSourceRun(other, c, w, branch, suite) &&
                   (AtlasTarget(c, w) ==> Succeeded(other)) ::
      RunId(other, number).Some? && !Later(other, run, number)
  }

  /** An accepted workflow has a decisive run of the target that succeeded and does not relate to other pull requests alone. */
  lemma WorkflowAccepted(payload: Json, c: Coordinates, w: Workflow, branch: string, suite: Option<Json>,
                         number: Json -> Option<int>) returns (run: Json)
    requires WorkflowError(payload, c, w, branch, suite, number) == None
    ensures Decisive(run, payload, c, w, branch, suite, number) && Succeeded(run) && Relates(run, c)
  {
    var runs := Candidates(payload, c, w, branch, suite);
    run := Latest(runs, number);
    LatestExactly(runs, number);
    FilterExactly(ListItems(Get(payload, Key.WorkflowRuns)), Counts(c, w, branch, suite));
    assert forall other | other in runs :: RunId(other, number).Some?;
  }

  /** An accepted gate has a successful run on the exact head, and no other run of the gate on that head is later. */
  lemma GateAccepted(payload: Json, gate: string, head: string, number: Json -> Option<int>) returns (run: Json)
    requires GateSuite(payload, gate, head, number).Success?
    ensures run in ListItems(Get(payload, Key.CheckRuns)) && IsGateRun(run, gate, head) && Succeeded(run)
    ensures SuiteId(run) == Some(GateSuite(payload, gate, head, number).value)
    ensures forall other | other in ListItems(Get(payload, Key.CheckRuns)) && IsGateRun(other, gate, head) ::
      RunId(other, number).Some? && !Later(other, run, number)
  {
    var runs := GateRuns(payload, gate, head);
    run := Latest(runs, number);
    LatestExactly(runs, number);
    FilterExactly(ListItems(Get(payload, Key.CheckRuns)), OfGate(gate, head));
    assert forall other | other in runs :: RunId(other, number).Some?;
  }

  // ---------------------------------------------------------------- the principal and the submission

  predicate MemberOk(status: int, body: Json, actor: string)
  {
    status == 200 && Get(body, Key.State) == Str("active") && Get(Get(body, Key.User), Key.Login) == Str(actor) &&
    Get(Get(body, Key.Organization), Key.Login) == Str("Oteryn")
  }

  /** A list or an object is not hashable, so looking it up in the set of permissions raises. */
  function PermissionError(body: Json): Option<Error>
  {
    var permission := Get(body, Key.Permission);
    if permission.List? || permission.Dict? then Some(Crash)
    else if permission == Str("admin") || permission == Str("maintain") then None
    else Some(ExecutorError)
  }

  function PullBranch(body: Json, c: Coordinates): Option<string>
  {
    var branch := Get(Get(body, Key.Head), Key.Ref);
    if IdentityOk(body, c.repository, c.head, true) && branch.Str? && branch.s != "" then Some(branch.s) else None
  }

  function StatusText(body: Json): Option<string>
  {
    var status := Get(body, Key.Status);
    if status.Str? && status.s != "" then Some(status.s) else None
  }

  /** The answer binds the merge queue and the exact head. */
  predicate Binds(body: Json, head: string)
  {
    Get(body, Key.Details).Dict? && Get(Get(body, Key.Details), Key.MergeAction) == Str("merge_queue") &&
    LowerText(Get(Get(body, Key.Details), Key.ExpectedHeadSha)) == head
  }

  predicate PrincipalIs(body: Json, actor: string)
  {
    Get(body, Key.Login) == Str(actor)
  }

  predicate MainIs(body: Json, main: string)
  {
    Get(body, Key.Sha) == Str(main)
  }

  function Request(c: Coordinates, now: int): Option<MergeRequest>
  {
    ExecutorRequest(c.repository, c.pullRequest, c.head, c.comment, now)
  }

  predicate UuidGiven(body: Json)
  {
    Get(Get(body, Key.Details), Key.Uuid) != Null
  }

  function DetailsUuid(body: Json): Option<string>
  {
    ServerUuid(Get(Get(body, Key.Details), Key.Uuid))
  }

  predicate StillTarget(body: Json, c: Coordinates)
  {
    IdentityOk(body, c.repository, c.head, false)
  }

  predicate Gated(c: Coordinates)
  {
    c.repository != ATLAS
  }

  function Workflows(site: Site): Coordinates -> nat
  {
    (c: Coordinates) => |site.workflows(c.repository)|
  }

  function GateJudge(site: Site): (Json, Coordinates) -> Result<Json, Error>
  {
    (body: Json, c: Coordinates) => GateSuite(body, site.gate(c.repository), c.head, site.number)
  }

  function WorkflowJudge(site: Site): (Json, Target, nat) -> Option<Error>
  {
    (body: Json, t: Target, k: nat) =>
      if k < |site.workflows(t.coordinates.repository)|
      then WorkflowError(body, t.coordinates, site.workflows(t.coordinates.repository)[k], t.branch, t.suite, site.number)
      else None
  }

  /** The judgement in use. */
  function Judging(site: Site): Judge
  {
    Judge(Normalize, ControlOk, PullBranch, Gated, GateJudge(site), Workflows(site), WorkflowJudge(site), PrincipalIs, MemberOk,
          PermissionError, Request, MainIs, UuidGiven, DetailsUuid, StatusText, Binds, StillTarget)
  }
}
