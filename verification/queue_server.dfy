/** The merge-queue executor's view of the outside: JSON replies of an arbitrary server, and the trace of everything it does. */
module QueueServer {
  import opened Wrappers
  import opened Strings
  import opened Decimals
  import opened SubmissionRouting

  // ---------------------------------------------------------------- JSON replies

  /** The members that the executor looks up. */
  datatype Key =
    | App | Base | Body | CheckRuns | CheckSuite | CheckSuiteId | Conclusion | Details | Draft | Event | ExpectedHeadSha | FullName | Head | HeadBranch | HeadRepository | HeadSha | Id | IssueUrl | Login | MergeAction | Merged | Name | Number | Organization | Path | Permission | PullRequests | Ref | Repo | Sha | Slug | State | Status | User | Uuid | WorkflowId | WorkflowRuns

  datatype Json =
    | Null | Bool(b: bool) | Int(i: int) | Float(r: real) | NonFinite | Str(s: string)
    | List(items: seq<Json>) | Dict(fields: map<Key, Json>)

  /** `value.get(key)` on an object, `None` on anything else. */
  function Get(v: Json, key: Key): Json
  {
    if v.Dict? && key in v.fields then v.fields[key] else Null
  }

  function ListItems(v: Json): seq<Json>
  {
    if v.List? then v.items else []
  }

  /** Python's `==` between a JSON value and an integer: floats and booleans compare by value. */
  predicate EqualsInt(v: Json, n: int)
  {
    match v
    case Int(i) => i == n
    case Float(r) => r == n as real
    case Bool(b) => n == if b then 1 else 0
    case _ => false
  }

  predicate SameNumber(v: Json, w: Json)
  {
    if w.Int? then EqualsInt(v, w.i) else w.Bool? && EqualsInt(v, if w.b then 1 else 0)
  }

  /** `str(value or "").lower()` as far as it can equal a SHA or a name: other types never do. */
  function LowerText(v: Json): string
  {
    if v.Str? then Lower(v.s) else if v.Int? then IntegerText(v.i) else ""
  }

  /** The canonical form of a UUID: 8-4-4-4-12 lowercase hexadecimal digits. */
  predicate IsUuid(s: string)
  {
    |s| == 36 && forall i | 0 <= i < |s| :: if IsHyphen(i) then s[i] == '-' else IsHex(s[i])
  }

  function ServerUuid(v: Json): Option<string>
  {
    if v.Str? && IsUuid(Lower(v.s)) then Some(Lower(v.s)) else None
  }

  // ---------------------------------------------------------------- requests and effects

  datatype Request =
    | GetComment(id: int)
    | GetPull(repository: string, number: int)
    | GetCheckRuns(repository: string, head: string)
    | GetWorkflowRuns(repository: string, head: string, index: nat)
    | GetUser
    | GetMembership
    | GetPermission(repository: string, login: string)
    | GetMain
    | PutMerge(merge: MergeRequest)
    | GetAsyncResult(repository: string, number: int, uuid: string)

  datatype Reply = Failed | Answer(status: int, body: Json)

  datatype Receipt = Receipt(
    repository: string,
    pullRequest: int,
    base: string,
    head: string,
    action: string,
    status: string,
    uuid: string,
    sequence: nat)

  /** One request with its answer, or one attempt to persist an acceptance receipt. */
  datatype Event = Exchanged(request: Request, reply: Reply) | Persisted(receipt: Receipt, stored: bool)

  datatype Error = ValueError | ExecutorError | Crash

  /** The connection to GitHub and to the run's environment; the oracles may depend on everything done so far. */
  class Connection {
    const respond: (seq<Event>, Request) -> Reply
    const stores: (seq<Event>, Receipt) -> bool
    const clock: seq<Event> -> int
    const actor: string
    const association: string

    var trace: seq<Event>

    constructor (respond: (seq<Event>, Request) -> Reply, stores: (seq<Event>, Receipt) -> bool,
                 clock: seq<Event> -> int, actor: string, association: string)
      ensures trace == [] && this.respond == respond && this.stores == stores
      ensures this.actor == Strip(actor, Space) && this.association == Strip(association, Space)
    {
      this.respond, this.stores, this.clock := respond, stores, clock;
      this.actor, this.association, trace := Strip(actor, Space), Strip(association, Space), [];
    }

    /** Sends a request; a transport failure, a status that is not allowed and a body that is no object raise. */
    method Rest(request: Request, allowed: set<int>) returns (r: Result<Reply, Error>)
      modifies `trace
      ensures |trace| == |old(trace)| + 1 && trace[..|old(trace)|] == old(trace)
      ensures trace[|old(trace)|].Exchanged? && trace[|old(trace)|].request == request
      ensures var reply := trace[|old(trace)|].reply;
        if reply.Answer? && reply.status in allowed && reply.body.Dict? then r == Success(reply) else r == Failure(ExecutorError)
    {
      var reply := respond(trace, request);
      trace := trace + [Exchanged(request, reply)];
      r := if reply.Answer? && reply.status in allowed && reply.body.Dict? then Success(reply) else Failure(ExecutorError);
    }

    /** Writes an acceptance receipt to the log and to the run summary. */
    method Persist(receipt: Receipt) returns (stored: bool)
      modifies `trace
      ensures trace == old(trace) + [Persisted(receipt, stored)]
    {
      stored := stores(trace, receipt);
      trace := trace + [Persisted(receipt, stored)];
    }
  }

  /** Counts the observations of one submission. */
  class ExecutorSequence {
    var value: nat

    constructor ()
      ensures value == 0
    {
      value := 0;
    }

    method Next() returns (n: nat)
      modifies this
      ensures n == value == old(value) + 1
    {
      value := value + 1;
      n := value;
    }
  }
}
