/** Route choice and request construction for one exact-head merge-queue submission. */
module SubmissionRouting {
  import opened Wrappers
  import opened Strings
  import opened Decimals
  import opened ControlCommand

  datatype Route =
    | AsyncMergeQueue | NotAuthorized | NotEligible | StaleState | FrozenHeadMismatch | CapabilityUnavailable

  datatype Attempt = Attempt(id: string, repository: string, pullRequest: int, base: string, head: string)

  datatype Freeze = Freeze(repository: string, pullRequest: int, head: string)

  datatype Authorization = Authorization(
    source: string,
    repository: string,
    pullRequest: int,
    base: string,
    head: string,
    authorized: bool,
    eligible: bool,
    observedAt: int)

  datatype Primitive = Primitive(operation: string, queueSpecific: bool, headFence: bool, baseFence: bool, approved: bool)

  datatype MergeRequest = MergeRequest(repository: string, pullRequest: int, head: string, action: string)

  const AUTHORIZATION_SOURCE := "live_authenticated_target_authorization"
  const MAX_AUTHORIZATION_AGE := 10
  const PRIMITIVES := [
    Primitive("merge-async", true, true, false, true),
    Primitive("enqueuePullRequest", true, true, false, false)]

  predicate IsAttemptChar(c: char)
  {
    'a' <= c <= 'z' || 'A' <= c <= 'Z' || IsDigit(c) || c in {'.', '_', ':', '-'}
  }

  /** 16 to 128 characters, the first one alphanumeric. */
  predicate IsAttemptId(s: string)
  {
    16 <= |s| <= 128 && s[0] !in {'.', '_', ':', '-'} && forall i | 0 <= i < |s| :: IsAttemptChar(s[i])
  }

  predicate ValidAttempt(a: Attempt)
  {
    IsAttemptId(a.id) && AllowedRepository(a.repository) && a.pullRequest >= 1 && a.base == "main" && IsSha(a.head)
  }

  predicate FreezeMatches(a: Attempt, f: Freeze)
  {
    f.repository == a.repository && f.pullRequest == a.pullRequest && f.head == a.head && IsSha(f.head)
  }

  predicate AuthorizationMatches(a: Attempt, auth: Authorization, now: int)
  {
    auth.source == AUTHORIZATION_SOURCE && auth.repository == a.repository && auth.pullRequest == a.pullRequest &&
    auth.base == a.base && auth.head == a.head && IsSha(auth.head) &&
    0 <= auth.observedAt <= now && now - auth.observedAt <= MAX_AUTHORIZATION_AGE
  }

  predicate MutationAuthOperational(s: string)
  {
    s == "direct_native_merge_async" || s == "fine_grained_pat"
  }

  predicate PrimitiveOperational(p: Primitive)
  {
    p.queueSpecific && p.headFence && p.approved
  }

  function OperationalRoutes(ps: seq<Primitive>): seq<string>
  {
    if ps == [] then [] else
      (if PrimitiveOperational(ps[0]) then [ps[0].operation] else []) + OperationalRoutes(ps[1..])
  }

  function ChooseRoute(a: Attempt, f: Freeze, auth: Authorization, execution: string, now: int): Route
  {
    if !ValidAttempt(a) then StaleState
    else if !AuthorizationMatches(a, auth, now) then StaleState
    else if !auth.authorized then NotAuthorized
    else if !auth.eligible then NotEligible
    else if !FreezeMatches(a, f) then FrozenHeadMismatch
    else if !MutationAuthOperational(execution) then CapabilityUnavailable
    else if OperationalRoutes(PRIMITIVES) == ["merge-async"] then AsyncMergeQueue
    else CapabilityUnavailable
  }

  function BuildMergeRequest(a: Attempt, f: Freeze, auth: Authorization, execution: string, now: int): Option<MergeRequest>
  {
    if ChooseRoute(a, f, auth, execution, now) != AsyncMergeQueue then None
    else Some(MergeRequest(a.repository, a.pullRequest, a.head, "merge_queue"))
  }

  // ---------------------------------------------------------------- the executor's own submissions

  function ExecutorAttempt(repository: string, pullRequest: int, head: string, comment: int, now: int): Attempt
  {
    Attempt("mq-executor:" + IntegerText(comment) + ":" + IntegerText(now), repository, pullRequest, "main", head)
  }

  function ExecutorAuthorization(repository: string, pullRequest: int, head: string, now: int): Authorization
  {
    Authorization(AUTHORIZATION_SOURCE, repository, pullRequest, "main", head, true, true, now)
  }

  function ExecutorRoute(repository: string, pullRequest: int, head: string, comment: int, now: int): Route
  {
    ChooseRoute(ExecutorAttempt(repository, pullRequest, head, comment, now), Freeze(repository, pullRequest, head),
                ExecutorAuthorization(repository, pullRequest, head, now), "fine_grained_pat", now)
  }

  function ExecutorRequest(repository: string, pullRequest: int, head: string, comment: int, now: int): Option<MergeRequest>
  {
    BuildMergeRequest(ExecutorAttempt(repository, pullRequest, head, comment, now), Freeze(repository, pullRequest, head),
                      ExecutorAuthorization(repository, pullRequest, head, now), "fine_grained_pat", now)
  }

  lemma OneOperationalRoute()
    ensures OperationalRoutes(PRIMITIVES) == ["merge-async"]
  {
    assert PRIMITIVES[1..] == [PRIMITIVES[1]] && PRIMITIVES[1..][1..] == [];
    assert OperationalRoutes(PRIMITIVES[1..]) == [];
  }

  lemma AttemptIdExactly(comment: nat, now: nat)
    ensures IsAttemptId("mq-executor:" + IntegerText(comment) + ":" + IntegerText(now)) <==>
      3 <= |Decimal(comment)| + |Decimal(now)| <= 115
  {
    var left, right := "mq-executor:" + Decimal(comment), ":" + Decimal(now);
    var id := left + right;
    assert id == "mq-executor:" + IntegerText(comment) + ":" + IntegerText(now);
    assert |id| == 13 + |Decimal(comment)| + |Decimal(now)|;
    forall i | 0 <= i < |id|
      ensures IsAttemptChar(id[i])
    {
      if i < 12 {
        assert id[i] == "mq-executor:"[i];
      } else if i < |left| {
        assert id[i] == Decimal(comment)[i - 12];
      } else {
        assert id[i] == right[i - |left|];
      }
    }
    assert id[0] == 'm';
  }

  /** For a qualified target the executor's submission is admitted exactly when its attempt id has an admissible length. */
  lemma QualifiedAdmittedExactly(repository: string, pullRequest: int, head: string, comment: nat, now: nat)
    requires AllowedRepository(repository) && pullRequest > 0 && IsSha(head)
    ensures ExecutorRoute(repository, pullRequest, head, comment, now) == AsyncMergeQueue <==>
      3 <= |Decimal(comment)| + |Decimal(now)| <= 115
    ensures ExecutorRequest(repository, pullRequest, head, comment, now) ==
      if 3 <= |Decimal(comment)| + |Decimal(now)| <= 115
      then Some(MergeRequest(repository, pullRequest, head, "merge_queue")) else None
  {
    OneOperationalRoute();
    AttemptIdExactly(comment, now);
  }

  /** Whatever its arguments, a request is bound to the head that attempt, freeze and authorization all name. */
  lemma RequestBound(a: Attempt, f: Freeze, auth: Authorization, execution: string, now: int)
    ensures BuildMergeRequest(a, f, auth, execution, now).Some? <==>
      ValidAttempt(a) && f == Freeze(a.repository, a.pullRequest, a.head) &&
      auth.(observedAt := 0) == Authorization(AUTHORIZATION_SOURCE, a.repository, a.pullRequest, "main", a.head, true, true, 0) &&
      0 <= auth.observedAt <= now <= auth.observedAt + MAX_AUTHORIZATION_AGE && MutationAuthOperational(execution)
    ensures BuildMergeRequest(a, f, auth, execution, now).Some? ==>
      BuildMergeRequest(a, f, auth, execution, now).value == MergeRequest(f.repository, f.pullRequest, auth.head, "merge_queue")
  {
    OneOperationalRoute();
  }

  // ---------------------------------------------------------------- receipts and observations

  datatype AsyncReceipt = AsyncReceipt(
    attempt: string,
    repository: string,
    pullRequest: int,
    base: string,
    head: string,
    action: string,
    status: int,
    uuid: string,
    observedAt: int,
    sequence: int)

  datatype Observation = Observation(
    source: string,
    repository: string,
    pullRequest: int,
    base: string,
    head: string,
    uuid: string,
    observedAt: int,
    sequence: int)

  datatype ReceiptVerdict = SubmissionAccepted | ReconcileRequired | ReceiptInvalid

  datatype TargetVerdict = TargetConfirmed | TargetReceiptInvalid | TargetMismatch

  const OBSERVATION_SOURCE := "live_post_submission_target_readback"
  const MAX_OBSERVATION_AGE := 10
  const MAX_RECEIPT_AGE := 60

  predicate IsHyphen(i: int)
  {
    i == 8 || i == 13 || i == 18 || i == 23
  }

  /** 8-4-4-4-12 hexadecimal digits of either case. */
  predicate UuidShaped(s: string)
  {
    |s| == 36 && forall i | 0 <= i < |s| :: if IsHyphen(i) then s[i] == '-' else IsHex(LowerChar(s[i]))
  }

  function VerifyReceipt(a: Attempt, r: AsyncReceipt, now: int): ReceiptVerdict
  {
    if !ValidAttempt(a) then ReceiptInvalid
    else if r.attempt != a.id || r.repository != a.repository || r.pullRequest != a.pullRequest || r.base != a.base ||
            r.head != a.head || r.action != "merge_queue" || r.sequence < 1 ||
            !(0 <= r.observedAt <= now) || now - r.observedAt > MAX_RECEIPT_AGE
    then ReceiptInvalid
    else if r.status == 200 || r.status == 409 then ReconcileRequired
    else if r.status != 202 || !UuidShaped(r.uuid) then ReceiptInvalid
    else SubmissionAccepted
  }

  function VerifyTarget(a: Attempt, r: AsyncReceipt, o: Observation, now: int): TargetVerdict
  {
    if VerifyReceipt(a, r, now) != SubmissionAccepted then TargetReceiptInvalid
    else if o.source != OBSERVATION_SOURCE || o.repository != a.repository || o.pullRequest != a.pullRequest ||
            o.base != a.base || o.head != a.head || o.uuid != r.uuid || o.sequence < 1 || o.sequence <= r.sequence ||
            !(0 <= o.observedAt <= now) || o.observedAt < r.observedAt || now - o.observedAt > MAX_OBSERVATION_AGE
    then TargetMismatch
    else TargetConfirmed
  }

  /** Everything that one observation confirms has its target, its head and its UUID, and came before it; only the attempt ids may differ. */
  lemma ConfirmationBinds(a: Attempt, r: AsyncReceipt, b: Attempt, q: AsyncReceipt, o: Observation, now: int, later: int)
    requires VerifyTarget(a, r, o, now) == TargetConfirmed && VerifyTarget(b, q, o, later) == TargetConfirmed
    ensures a.(id := "") == b.(id := "") && r.uuid == q.uuid && r.status == q.status == 202
    ensures r.sequence < o.sequence && q.sequence < o.sequence
    ensures r.observedAt <= o.observedAt <= now && q.observedAt <= o.observedAt <= later && -10 <= now - later <= 10
  {
  }

  /** An observation does not know the attempt id: with any other admissible id the same submission is confirmed as well. */
  lemma ConfirmationIgnoresAttemptId(a: Attempt, r: AsyncReceipt, o: Observation, now: int, id: string)
    requires VerifyTarget(a, r, o, now) == TargetConfirmed
    ensures VerifyTarget(a.(id := id), r.(attempt := id), o, now) == TargetConfirmed <==> ValidAttempt(a.(id := id))
  {
    assert r.attempt == a.id;
  }
}
