/** Whole runs of the execution guard: each decision's snapshot is the next decision's predecessor. */
module GuardRuns {
  import opened Wrappers
  import opened ExecutionGuard

  datatype Turn = Turn(current: Snapshot, action: Action, decision: Decision)

  /** Every turn is decided against the snapshot of the turn before it (`start` for the first). */
  ghost predicate IsRun(g: Guard, start: Option<Snapshot>, turns: seq<Turn>)
    decreases turns
  {
    turns == [] ||
    (Decide(g, turns[0].current, turns[0].action, start) == Success(turns[0].decision) &&
     IsRun(g, Some(turns[0].decision.snapshot), turns[1..]))
  }

  ghost predicate OnMaterial(turns: seq<Turn>, m: Material)
  {
    forall i | 0 <= i < |turns| :: turns[i].current.material == m
  }

  ghost predicate OnHead(turns: seq<Turn>, head: string)
  {
    forall i | 0 <= i < |turns| :: turns[i].current.material.headSha == head
  }

  /** The number of admitted operational actions. */
  ghost function Admitted(turns: seq<Turn>): nat
  {
    if turns == [] then 0
    else (if Operates(turns[0].decision, turns[0].action) then 1 else 0) + Admitted(turns[1..])
  }

  ghost function AdmittedHeavy(turns: seq<Turn>): nat
  {
    if turns == [] then 0
    else (if turns[0].decision.allowed && turns[0].action == RunHeavyValidation then 1 else 0) + AdmittedHeavy(turns[1..])
  }

  ghost function Rest(budget: int, spent: int): nat
  {
    if spent < budget then budget - spent else 0
  }

  // ---------------------------------------------------------------- no-progress work

  /** What is left to admit while the material fields stay as in `previous`. */
  ghost function Allowance(g: Guard, previous: Option<Snapshot>): nat
  {
    if previous.None? then Rest(g.policy.retryBudget, 0) + Rest(g.policy.heavyBudget, 0) + 1
    else if previous.value.state == DONE then 0
    else Rest(g.policy.retryBudget, previous.value.failureCycles) + Rest(g.policy.heavyBudget, previous.value.heavyAttempts) + 1
  }

  lemma OperationSpent(g: Guard, effective: Snapshot, action: Action, changed: bool)
    requires SnapshotError(g, effective).None? && effective.state != DONE
    requires action != Observe && !action.Unsupported? && !changed
    ensures var d := Operational(g, effective, action, changed);
      Allowance(g, Some(d.snapshot)) + (if d.allowed then 1 else 0) <= Allowance(g, Some(effective))
  {
  }

  lemma AllowanceSpent(g: Guard, current: Snapshot, action: Action, previous: Option<Snapshot>)
    requires Decide(g, current, action, previous).Success?
    requires previous.Some? ==> previous.value.material == current.material
    ensures var d := Decide(g, current, action, previous).value;
      d.snapshot.material == current.material &&
      Allowance(g, Some(d.snapshot)) + (if Operates(d, action) then 1 else 0) <= Allowance(g, previous)
  {
    var effective := Effective(current, previous);
    DecisionFollows(g, current, action, previous);
    if effective.state != DONE && action != Observe {
      OperationSpent(g, effective, action, false);
    }
  }

  /** Work without material progress is bounded, whatever the run does and declares. */
  lemma {:induction false} NoProgressBounded(g: Guard, start: Option<Snapshot>, turns: seq<Turn>, m: Material)
    requires IsRun(g, start, turns) && OnMaterial(turns, m)
    requires start.Some? ==> start.value.material == m
    ensures Admitted(turns) <= Allowance(g, start)
    ensures turns != [] ==> Admitted(turns) <= g.policy.retryBudget + g.policy.heavyBudget + 1
    decreases turns
  {
    if turns != [] {
      var t := turns[0];
      AllowanceSpent(g, t.current, t.action, start);
      NoProgressBounded(g, Some(t.decision.snapshot), turns[1..], m);
    }
  }

  /** A turn of a no-progress run that spends one unit of allowance. */
  ghost function Spend(g: Guard, s: Snapshot): Turn
    requires SnapshotError(g, s).None?
    requires s.state == RUNNING && s.material.blockingDependency == "" && s.material.firstFailure != ""
    requires s.failureCycles <= g.policy.retryBudget && s.heavyAttempts <= g.policy.heavyBudget
  {
    var action := if s.failureCycles < g.policy.retryBudget then Retry
                  else if s.heavyAttempts < g.policy.heavyBudget then RunHeavyValidation
                  else Complete;
    var current := s.(completionVerified := s.completionVerified || action == Complete);
    Turn(current, action, Decide(g, current, action, Some(s)).value)
  }

  /** It leaves the run where the next unit can be spent, or ends it. */
  lemma Spent(g: Guard, s: Snapshot) returns (t: Turn)
    requires SnapshotError(g, s).None?
    requires s.state == RUNNING && s.material.blockingDependency == "" && s.material.firstFailure != ""
    requires s.failureCycles <= g.policy.retryBudget && s.heavyAttempts <= g.policy.heavyBudget
    ensures t == Spend(g, s) && Decide(g, t.current, t.action, Some(s)) == Success(t.decision) && Operates(t.decision, t.action)
    ensures var next := t.decision.snapshot;
      t.current.material == next.material == s.material && Allowance(g, Some(next)) == Allowance(g, Some(s)) - 1 &&
      (t.action == Complete <==> Allowance(g, Some(next)) == 0) &&
      (t.action != Complete ==>
        SnapshotError(g, next).None? && next.state == RUNNING &&
        next.failureCycles <= g.policy.retryBudget && next.heavyAttempts <= g.policy.heavyBudget)
  {
    hide Releases;
    t := Spend(g, s);
  }

  lemma {:induction false} SpendAll(g: Guard, s: Snapshot) returns (turns: seq<Turn>)
    requires SnapshotError(g, s).None?
    requires s.state == RUNNING && s.material.blockingDependency == "" && s.material.firstFailure != ""
    requires s.failureCycles <= g.policy.retryBudget && s.heavyAttempts <= g.policy.heavyBudget
    ensures IsRun(g, Some(s), turns) && OnMaterial(turns, s.material)
    ensures Admitted(turns) == Allowance(g, Some(s))
    decreases Allowance(g, Some(s))
  {
    hide Decide, Spend, Allowance, SnapshotError;
    var t := Spent(g, s);
    var later := [];
    if t.action != Complete {
      later := SpendAll(g, t.decision.snapshot);
    }
    turns := [t] + later;
    assert turns[1..] == later;
  }

  /** The bound is attained under every policy: no smaller one would hold. */
  lemma NoProgressBoundAttained(g: Guard) returns (turns: seq<Turn>, m: Material)
    requires ValidPolicy(g.policy)
    ensures IsRun(g, None, turns) && OnMaterial(turns, m)
    ensures Admitted(turns) == g.policy.retryBudget + g.policy.heavyBudget + 1
  {
    m := Material("r", "t", "h", "p", "", "none", "g", "failure");
    var s := Snapshot(m, RUNNING, false, "", 0, 0, false);
    var first := Turn(s, Observe, Decide(g, s, Observe, None).value);
    var later := SpendAll(g, s);
    turns := [first] + later;
    assert turns[1..] == later;
  }

  // ---------------------------------------------------------------- heavy validations on one head

  ghost function HeavyAllowance(g: Guard, previous: Option<Snapshot>, head: string): nat
  {
    if previous.Some? && previous.value.material.headSha == head
    then Rest(g.policy.heavyBudget, previous.value.heavyAttempts)
    else Rest(g.policy.heavyBudget, 0)
  }

  lemma HeavySpent(g: Guard, current: Snapshot, action: Action, previous: Option<Snapshot>)
    requires Decide(g, current, action, previous).Success?
    ensures var d := Decide(g, current, action, previous).value;
      var head := current.material.headSha;
      HeavyAllowance(g, Some(d.snapshot), head) + (if d.allowed && action == RunHeavyValidation then 1 else 0)
        <= HeavyAllowance(g, previous, head)
  {
    var effective := Effective(current, previous);
    var changed := Changed(g, effective, previous);
    DecisionFollows(g, current, action, previous);
    if Verdict(g, current, action, previous) == Operational(g, effective, action, changed) {
      HeavyOperationSpent(g, effective, action, changed);
    }
  }

  lemma HeavyOperationSpent(g: Guard, effective: Snapshot, action: Action, changed: bool)
    requires SnapshotError(g, effective).None?
    ensures var d := Operational(g, effective, action, changed);
      d.allowed && action == RunHeavyValidation ==>
        d.snapshot.material == effective.material && d.snapshot.heavyAttempts == effective.heavyAttempts + 1 <= g.policy.heavyBudget
  {
  }

  /** On one head the heavy validations stay within their budget even when every other field changes. */
  lemma {:induction false} HeavyBounded(g: Guard, start: Option<Snapshot>, turns: seq<Turn>, head: string)
    requires IsRun(g, start, turns) && OnHead(turns, head)
    ensures AdmittedHeavy(turns) <= HeavyAllowance(g, start, head)
    ensures turns != [] ==> AdmittedHeavy(turns) <= g.policy.heavyBudget
    decreases turns
  {
    if turns != [] {
      var t := turns[0];
      HeavySpent(g, t.current, t.action, start);
      HeavyBounded(g, Some(t.decision.snapshot), turns[1..], head);
    }
  }

  predicate At(t: Turn, head: string)
  {
    t.current.material.headSha == head
  }

  /** The admitted heavy validations on one head, wherever in the run they are. */
  ghost function HeavyOn(turns: seq<Turn>, head: string): nat
  {
    if turns == [] then 0
    else
      (if At(turns[0], head) && turns[0].decision.allowed && turns[0].action == RunHeavyValidation then 1 else 0) +
      HeavyOn(turns[1..], head)
  }

  /** How many contiguous stretches on `head` begin in a run; `inside` says whether the turn before it was on `head`. */
  ghost function Stretches(turns: seq<Turn>, head: string, inside: bool): nat
  {
    if turns == [] then 0
    else (if At(turns[0], head) && !inside then 1 else 0) + Stretches(turns[1..], head, At(turns[0], head))
  }

  /** `n` budgets. */
  ghost function Budgets(g: Guard, n: nat): int
  {
    if n == 0 then 0 else g.policy.heavyBudget + Budgets(g, n - 1)
  }

  lemma {:induction false} BudgetsExactly(g: Guard, n: nat)
    ensures Budgets(g, n) == n * g.policy.heavyBudget
  {
    if n > 0 {
      BudgetsExactly(g, n - 1);
      assert n * g.policy.heavyBudget == (n - 1) * g.policy.heavyBudget + g.policy.heavyBudget;
    }
  }

  lemma {:induction false} StretchesSpend(g: Guard, start: Option<Snapshot>, turns: seq<Turn>, head: string, inside: bool)
    requires IsRun(g, start, turns) && ValidPolicy(g.policy)
    ensures HeavyOn(turns, head) <=
      Budgets(g, Stretches(turns, head, inside)) + if inside then HeavyAllowance(g, start, head) else 0
    decreases turns
  {
    if turns != [] {
      var t := turns[0];
      StretchesSpend(g, Some(t.decision.snapshot), turns[1..], head, At(t, head));
      if At(t, head) {
        TurnSpends(g, start, t, head);
      }
    }
  }

  lemma TurnSpends(g: Guard, start: Option<Snapshot>, t: Turn, head: string)
    requires Decide(g, t.current, t.action, start) == Success(t.decision) && At(t, head)
    ensures HeavyAllowance(g, Some(t.decision.snapshot), head) +
            (if t.decision.allowed && t.action == RunHeavyValidation then 1 else 0) <= HeavyAllowance(g, start, head)
    ensures HeavyAllowance(g, start, head) <= g.policy.heavyBudget
  {
    HeavySpent(g, t.current, t.action, start);
    AllowanceWithin(g, start, head);
  }

  lemma AllowanceWithin(g: Guard, start: Option<Snapshot>, head: string)
    requires ValidPolicy(g.policy) && (start.Some? ==> SnapshotError(g, start.value).None?)
    ensures HeavyAllowance(g, start, head) <= g.policy.heavyBudget
  {
  }

  /** Over a whole run the heavy validations on a head stay within one budget for each contiguous stretch on it. */
  lemma HeavyWithinStretches(g: Guard, start: Option<Snapshot>, turns: seq<Turn>, head: string)
    requires IsRun(g, start, turns) && ValidPolicy(g.policy)
    ensures HeavyOn(turns, head) <= Stretches(turns, head, false) * g.policy.heavyBudget
  {
    StretchesSpend(g, start, turns, head, false);
    BudgetsExactly(g, Stretches(turns, head, false));
  }

  /** A running snapshot on a head, with some heavy attempts made. */
  function OnThe(head: string, attempts: int): Snapshot
  {
    Snapshot(Material("r", "t", head, "p", "", "none", "g", ""), RUNNING, false, "", 0, attempts, false)
  }

  /** The turn that spends one more attempt on head A. */
  ghost function SpendOne(g: Guard, attempts: nat): Turn
    requires ValidPolicy(g.policy)
  {
    var s := OnThe("A", attempts);
    Turn(s, RunHeavyValidation, Decide(g, s, RunHeavyValidation, Some(s)).value)
  }

  /** The turn that moves from one head to another and only observes. */
  ghost function Move(g: Guard, from: Snapshot, to: string): Turn
    requires ValidPolicy(g.policy) && SnapshotError(g, from).None? && from == OnThe(from.material.headSha, from.heavyAttempts)
    requires from.material.headSha != to
  {
    Turn(OnThe(to, 0), Observe, Decide(g, OnThe(to, 0), Observe, Some(from)).value)
  }

  lemma SpentOne(g: Guard, attempts: nat)
    requires ValidPolicy(g.policy) && attempts < g.policy.heavyBudget
    ensures var t := SpendOne(g, attempts);
      Decide(g, t.current, t.action, Some(OnThe("A", attempts))) == Success(t.decision) &&
      t.decision.allowed && t.decision.snapshot == OnThe("A", attempts + 1)
  {
  }

  lemma Moved(g: Guard, from: Snapshot, to: string)
    requires ValidPolicy(g.policy) && SnapshotError(g, from).None? && from == OnThe(from.material.headSha, from.heavyAttempts)
    requires from.material.headSha != to
    ensures var t := Move(g, from, to);
      Decide(g, t.current, t.action, Some(from)) == Success(t.decision) && t.decision.snapshot == OnThe(to, 0)
  {
  }

  lemma RunCons(g: Guard, start: Option<Snapshot>, t: Turn, later: seq<Turn>)
    requires Decide(g, t.current, t.action, start) == Success(t.decision) && IsRun(g, Some(t.decision.snapshot), later)
    ensures IsRun(g, start, [t] + later)
    ensures Stretches([t] + later, "A", true) == Stretches(later, "A", At(t, "A"))
    ensures Stretches([t] + later, "A", false) == (if At(t, "A") then 1 else 0) + Stretches(later, "A", At(t, "A"))
    ensures HeavyOn([t] + later, "A") ==
      (if At(t, "A") && t.decision.allowed && t.action == RunHeavyValidation then 1 else 0) + HeavyOn(later, "A")
  {
    assert ([t] + later)[1..] == later;
  }

  lemma {:induction false} SpendStretches(g: Guard, attempts: nat, more: nat) returns (turns: seq<Turn>)
    requires ValidPolicy(g.policy) && attempts <= g.policy.heavyBudget
    ensures IsRun(g, Some(OnThe("A", attempts)), turns)
    ensures Stretches(turns, "A", true) == more
    ensures HeavyOn(turns, "A") == g.policy.heavyBudget - attempts + Budgets(g, more)
    decreases more, g.policy.heavyBudget - attempts
  {
    if attempts < g.policy.heavyBudget {
      var later := SpendStretches(g, attempts + 1, more);
      SpentOne(g, attempts);
      RunCons(g, Some(OnThe("A", attempts)), SpendOne(g, attempts), later);
      turns := [SpendOne(g, attempts)] + later;
    } else if more == 0 {
      turns := [];
    } else {
      turns := SpendStretches(g, 0, more - 1);
      turns := LeaveAndReturn(g, attempts, turns);
    }
  }

  lemma LeaveAndReturn(g: Guard, attempts: nat, later: seq<Turn>) returns (turns: seq<Turn>)
    requires ValidPolicy(g.policy) && IsRun(g, Some(OnThe("A", 0)), later)
    ensures IsRun(g, Some(OnThe("A", attempts)), turns)
    ensures Stretches(turns, "A", true) == 1 + Stretches(later, "A", true) && HeavyOn(turns, "A") == HeavyOn(later, "A")
  {
    var away, back := Move(g, OnThe("A", attempts), "B"), Move(g, OnThe("B", 0), "A");
    Moved(g, OnThe("A", attempts), "B");
    Moved(g, OnThe("B", 0), "A");
    RunCons(g, Some(OnThe("B", 0)), back, later);
    RunCons(g, Some(OnThe("A", attempts)), away, [back] + later);
    turns := [away] + ([back] + later);
  }

  /** For every policy and every number of stretches some run spends the whole budget on each of them. */
  lemma StretchBoundAttained(g: Guard, n: nat) returns (turns: seq<Turn>)
    requires ValidPolicy(g.policy) && n > 0
    ensures IsRun(g, None, turns) && Stretches(turns, "A", false) == n
    ensures HeavyOn(turns, "A") == n * g.policy.heavyBudget
  {
    var s := OnThe("A", 0);
    var first := Turn(s, Observe, Decide(g, s, Observe, None).value);
    var later := SpendStretches(g, 0, n - 1);
    RunCons(g, None, first, later);
    turns := [first] + later;
    BudgetsExactly(g, n);
  }

  /** So a head that is left and returned to gets more than its budget, whatever the budget is, unless it is zero. */
  lemma ReturningHeadStartsAfresh(g: Guard) returns (turns: seq<Turn>)
    requires ValidPolicy(g.policy)
    ensures IsRun(g, None, turns) && Stretches(turns, "A", false) == 2
    ensures HeavyOn(turns, "A") > g.policy.heavyBudget <==> g.policy.heavyBudget > 0
  {
    turns := StretchBoundAttained(g, 2);
  }

  // ---------------------------------------------------------------- identity, termination, freeze, release

  /** Repository and task identity of a run are fixed by its first snapshot. */
  lemma {:induction false} IdentityKept(g: Guard, start: Snapshot, turns: seq<Turn>)
    requires IsRun(g, Some(start), turns)
    ensures forall i | 0 <= i < |turns| ::
      turns[i].decision.snapshot.material.repository == start.material.repository &&
      turns[i].decision.snapshot.material.taskId == start.material.taskId
    decreases turns
  {
    if turns != [] {
      var t := turns[0];
      DecisionFollows(g, t.current, t.action, Some(start));
      IdentityKept(g, t.decision.snapshot, turns[1..]);
    }
  }

  ghost predicate CountersKept(before: Snapshot, after: Snapshot)
  {
    (after.material.headSha == before.material.headSha ==> after.heavyAttempts >= before.heavyAttempts) &&
    (after.material == before.material ==> after.failureCycles >= before.failureCycles)
  }

  ghost function Before(start: Snapshot, turns: seq<Turn>, i: nat): Snapshot
    requires i <= |turns|
  {
    if i == 0 then start else turns[i - 1].decision.snapshot
  }

  /** Neither counter ever falls in its scope: heavy attempts on one head, failure cycles on one set of material fields. */
  lemma {:induction false} CountersNeverFall(g: Guard, start: Snapshot, turns: seq<Turn>)
    requires IsRun(g, Some(start), turns)
    ensures forall i | 0 <= i < |turns| :: CountersKept(Before(start, turns, i), turns[i].decision.snapshot)
    decreases turns
  {
    if turns != [] {
      var t := turns[0];
      DecisionContinues(g, t.current, t.action, Some(start));
      CountersNeverFall(g, t.decision.snapshot, turns[1..]);
      forall i | 0 <= i < |turns|
        ensures CountersKept(Before(start, turns, i), turns[i].decision.snapshot)
      {
        if i > 0 {
          assert CountersKept(Before(t.decision.snapshot, turns[1..], i - 1), turns[1..][i - 1].decision.snapshot);
        }
      }
    }
  }

  /** Once done, a run only observes and its snapshot never changes. */
  lemma {:induction false} DoneAbsorbs(g: Guard, start: Snapshot, turns: seq<Turn>)
    requires IsRun(g, Some(start), turns) && start.state == DONE
    ensures Admitted(turns) == 0
    ensures forall i | 0 <= i < |turns| :: turns[i].decision.state == DONE && turns[i].decision.snapshot == start
    decreases turns
  {
    if turns != [] {
      DoneAbsorbs(g, turns[0].decision.snapshot, turns[1..]);
    }
  }

  ghost predicate ClosesVerified(t: Turn)
  {
    t.decision.state == DONE && t.current.completionVerified && (t.action == Complete || t.current.state == DONE)
  }

  lemma OperationalDone(g: Guard, effective: Snapshot, action: Action, changed: bool)
    requires effective.state != DONE && Operational(g, effective, action, changed).state == DONE
    ensures action == Complete && effective.completionVerified
  {
    hide Fingerprint, Releases;
  }

  lemma DoneVerified(g: Guard, t: Turn, previous: Option<Snapshot>)
    requires Decide(g, t.current, t.action, previous) == Success(t.decision)
    requires t.decision.state == DONE && (previous.Some? ==> previous.value.state != DONE)
    ensures ClosesVerified(t)
  {
    hide HistoryError, Releases, Parked, Fingerprint, Changed, Operational;
    var effective := Effective(t.current, previous);
    var changed := Changed(g, effective, previous);
    if effective.state != DONE && Operational(g, effective, t.action, changed).state == DONE {
      OperationalDone(g, effective, t.action, changed);
    }
  }

  lemma OperationalState(g: Guard, effective: Snapshot, action: Action, changed: bool)
    ensures Operational(g, effective, action, changed).snapshot.state == Operational(g, effective, action, changed).state
  {
    hide Fingerprint, Releases;
  }

  lemma VerdictState(g: Guard, current: Snapshot, action: Action, previous: Option<Snapshot>)
    ensures Verdict(g, current, action, previous).snapshot.state == Verdict(g, current, action, previous).state
  {
    hide Operational, Effective, DependencyState, Changed, Parked, Releases, Fingerprint;
    OperationalState(g, Effective(current, previous), action, Changed(g, Effective(current, previous), previous));
  }

  lemma DecidedState(g: Guard, current: Snapshot, action: Action, previous: Option<Snapshot>)
    requires Decide(g, current, action, previous).Success?
    ensures Decide(g, current, action, previous).value.snapshot.state == Decide(g, current, action, previous).value.state
  {
    hide Verdict, InputError;
    VerdictState(g, current, action, previous);
  }

  /** A run that reaches DONE has a turn whose caller declared the completion verified. */
  lemma {:induction false} DoneWasVerified(g: Guard, start: Option<Snapshot>, turns: seq<Turn>)
    requires IsRun(g, start, turns) && (start.Some? ==> start.value.state != DONE)
    requires turns != [] && turns[|turns| - 1].decision.state == DONE
    ensures exists i :: 0 <= i < |turns| && ClosesVerified(turns[i])
    decreases turns
  {
    hide Decide, ClosesVerified;
    var t := turns[0];
    DecidedState(g, t.current, t.action, start);
    if t.decision.state == DONE {
      DoneVerified(g, t, start);
    } else {
      DoneWasVerified(g, Some(t.decision.snapshot), turns[1..]);
      var i :| 0 <= i < |turns[1..]| && ClosesVerified(turns[1..][i]);
      assert turns[i + 1] == turns[1..][i];
    }
  }

  /** A frozen head stays frozen; it is edited only by a changed candidate with a recorded reason. */
  lemma {:induction false} FreezeSticks(g: Guard, start: Snapshot, turns: seq<Turn>, head: string)
    requires IsRun(g, Some(start), turns) && OnHead(turns, head)
    requires start.candidateFrozen && start.material.headSha == head
    ensures forall i | 0 <= i < |turns| :: turns[i].decision.snapshot.candidateFrozen
    ensures forall i | 0 <= i < |turns| && turns[i].decision.allowed && turns[i].action in {Mutate, Retrigger} ::
      turns[i].current.materialReason in g.policy.materialReasons &&
      turns[i].current.material != (if i == 0 then start else turns[i - 1].decision.snapshot).material
    decreases turns
  {
    if turns != [] {
      var t := turns[0];
      FrozenEdit(g, t.current, t.action, start);
      FreezeSticks(g, t.decision.snapshot, turns[1..], head);
      assert forall i | 1 <= i < |turns| :: turns[i] == turns[1..][i - 1];
    }
  }

  lemma FrozenEdit(g: Guard, current: Snapshot, action: Action, previous: Snapshot)
    requires previous.candidateFrozen && previous.material.headSha == current.material.headSha
    requires Decide(g, current, action, Some(previous)).Success?
    ensures var d := Decide(g, current, action, Some(previous)).value;
      d.snapshot.candidateFrozen && d.snapshot.material.headSha == current.material.headSha &&
      (d.allowed && action in {Mutate, Retrigger} ==>
        current.materialReason in g.policy.materialReasons && current.material != previous.material)
  {
    DecisionFollows(g, current, action, Some(previous));
  }

  /** One decision on a parked task with unchanged material. */
  lemma ParkedHolds(g: Guard, current: Snapshot, action: Action, previous: Snapshot)
    requires Decide(g, current, action, Some(previous)).Success?
    requires Parked(previous.state) && current.material == previous.material
    ensures var d := Decide(g, current, action, Some(previous)).value;
      !Operates(d, action) && (d.state == DONE || Parked(d.state)) &&
      d.snapshot.state == d.state && d.snapshot.material == previous.material
  {
    hide SnapshotError, HistoryError, Operational;
  }

  /** A released task admits nothing and keeps its snapshot until its material fields change. */
  lemma {:induction false} ReleaseHolds(g: Guard, start: Snapshot, turns: seq<Turn>)
    requires IsRun(g, Some(start), turns) && Parked(start.state) && OnMaterial(turns, start.material)
    ensures Admitted(turns) == 0
    ensures forall i | 0 <= i < |turns| :: Releases(turns[i].decision.state)
    decreases turns
  {
    hide Decide;
    if turns != [] {
      var t := turns[0];
      ParkedHolds(g, t.current, t.action, start);
      if t.decision.state == DONE {
        DoneAbsorbs(g, t.decision.snapshot, turns[1..]);
      } else {
        ReleaseHolds(g, t.decision.snapshot, turns[1..]);
      }
    }
  }
}
