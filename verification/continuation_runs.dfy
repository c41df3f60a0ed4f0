/** Courses of a task over many workers: guard decisions, checkpoint writes and resumptions interleaved. */
module ContinuationRuns {
  import opened Wrappers
  import opened Strings
  import opened ExecutionGuard
  import opened GuardRuns
  import opened Continuation

  datatype Event =
    | Decided(turn: Turn)
    | Wrote(checkpoint: Checkpoint, task: Task, authorities: Authorities)
    | Resumed(checkpoint: Checkpoint, task: Task, authorities: Authorities)
  {
    /** An admitted operational action. */
    ghost predicate Acts() {
      Decided? && Operates(turn.decision, turn.action)
    }
  }

  /** What persists between events: the guard's snapshot, the latest checkpoint, and whether a worker owns the task. */
  datatype Progress = Progress(snapshot: Option<Snapshot>, latest: Option<Checkpoint>, owned: bool)

  /**
   By the rule of ownership only the worker that owns the task operates on it and writes; anyone may observe. A
   resumption asks for the authorities alone, not for whether the task is owned.
   */
  ghost predicate CanStep(g: Guard, p: Progress, e: Event)
  {
    match e
    case Decided(t) => (p.owned || t.action == Observe) && Decide(g, t.current, t.action, p.snapshot) == Success(t.decision)
    case Wrote(c, t, a) =>
      p.owned && p.snapshot.Some? && GuardedBy(a) && a.latest == p.latest && a.currentState == p.snapshot.value.state &&
      WriteError(c, t, a) == None
    case Resumed(c, t, a) => GuardedBy(a) && a.latest == p.latest && ReadError(c, t, a) == None
  }

  /** A checkpoint for any other disposition than `continue_current` gives ownership up. */
  function After(p: Progress, e: Event): Progress
  {
    match e
    case Decided(t) => p.(snapshot := Some(t.decision.snapshot))
    case Wrote(c, _, _) => p.(latest := Some(c), owned := c.disposition == Some(ContinueCurrent))
    case Resumed(_, _, _) => p.(owned := true)
  }

  /** Where the events lead, if each of them can happen in its turn. */
  ghost function Outcome(can: (Progress, Event) -> bool, p: Progress, events: seq<Event>): Option<Progress>
    decreases events
  {
    if events == [] then Some(p)
    else if can(p, events[0]) then Outcome(can, After(p, events[0]), events[1..])
    else None
  }

  ghost function Steps(g: Guard): (Progress, Event) -> bool
  {
    (p, e) => CanStep(g, p, e)
  }

  ghost predicate IsCourse(g: Guard, p: Progress, events: seq<Event>)
  {
    Outcome(Steps(g), p, events).Some?
  }

  function Reached(p: Progress, events: seq<Event>, n: nat): Progress
    requires n <= |events|
  {
    if n == 0 then p else After(Reached(p, events, n - 1), events[n - 1])
  }

  ghost function Turns(events: seq<Event>): seq<Turn>
  {
    if events == [] then []
    else if events[0].Decided? then [events[0].turn] + Turns(events[1..])
    else Turns(events[1..])
  }

  // ---------------------------------------------------------------- the guard within a course

  lemma TurnFirst(g: Guard, start: Option<Snapshot>, t: Turn, turns: seq<Turn>)
    requires Decide(g, t.current, t.action, start) == Success(t.decision) && IsRun(g, Some(t.decision.snapshot), turns)
    ensures IsRun(g, start, [t] + turns)
  {
    assert ([t] + turns)[1..] == turns;
  }

  /** Whoever decides, the decisions of a course make one run of the guard. */
  lemma {:induction false} CourseIsRun(g: Guard, p: Progress, events: seq<Event>)
    requires IsCourse(g, p, events)
    ensures IsRun(g, p.snapshot, Turns(events))
    decreases events
  {
    if events != [] {
      CourseIsRun(g, After(p, events[0]), events[1..]);
      if events[0].Decided? {
        TurnFirst(g, p.snapshot, events[0].turn, Turns(events[1..]));
      }
    }
  }

  lemma AdmittedFirst(t: Turn, turns: seq<Turn>)
    ensures Admitted([t] + turns) == (if Operates(t.decision, t.action) then 1 else 0) + Admitted(turns)
  {
    assert ([t] + turns)[1..] == turns;
  }

  lemma {:induction false} TurnsAdmitted(events: seq<Event>, j: nat)
    requires j < |events| && events[j].Acts()
    ensures Admitted(Turns(events)) > 0
    decreases events
  {
    if events[0].Decided? {
      AdmittedFirst(events[0].turn, Turns(events[1..]));
    }
    if j > 0 {
      assert events[1..][j - 1] == events[j];
      TurnsAdmitted(events[1..], j - 1);
    }
  }

  lemma {:induction false} TurnsOnMaterial(events: seq<Event>, m: Material)
    requires forall i | 0 <= i < |events| && events[i].Decided? :: events[i].turn.current.material == m
    ensures OnMaterial(Turns(events), m)
    decreases events
  {
    if events != [] {
      TurnsOnMaterial(events[1..], m);
    }
  }

  lemma {:induction false} OutcomePrefix(can: (Progress, Event) -> bool, p: Progress, events: seq<Event>, n: nat)
    requires Outcome(can, p, events).Some? && n <= |events|
    ensures Outcome(can, p, events[..n]).Some?
    decreases events
  {
    if n > 0 {
      OutcomePrefix(can, After(p, events[0]), events[1..], n - 1);
      assert events[..n][1..] == events[1..][..n - 1];
    }
  }

  lemma {:induction false} OutcomeFrom(can: (Progress, Event) -> bool, p: Progress, events: seq<Event>, n: nat)
    requires Outcome(can, p, events).Some? && n <= |events|
    ensures Outcome(can, Reached(p, events, n), events[n..]).Some?
    ensures n > 0 ==> can(Reached(p, events, n - 1), events[n - 1])
    decreases n
  {
    if n == 0 {
      assert events[0..] == events;
    } else {
      OutcomeFrom(can, p, events, n - 1);
      assert events[n - 1..][0] == events[n - 1] && events[n - 1..][1..] == events[n..];
    }
  }

  lemma CoursePrefix(g: Guard, p: Progress, events: seq<Event>, n: nat)
    requires IsCourse(g, p, events) && n <= |events|
    ensures IsCourse(g, p, events[..n])
  {
    OutcomePrefix(Steps(g), p, events, n);
  }

  lemma CourseFrom(g: Guard, p: Progress, events: seq<Event>, n: nat)
    requires IsCourse(g, p, events) && n <= |events|
    ensures IsCourse(g, Reached(p, events, n), events[n..])
  {
    OutcomeFrom(Steps(g), p, events, n);
  }

  // ---------------------------------------------------------------- acting after ownership was given up

  /** The checkpoint's own mechanism really fired: an automatic event, or the owner's re-entry. */
  ghost predicate Fired(c: Checkpoint, a: Authorities)
  {
    c.mechanism.Some? && (if c.mechanism.value == OwnerReinvoke then a.ownerReinvoked(c) else a.eventHappened(c)) &&
    a.provesTransition(c, a.currentState) && a.matchesCurrent(c)
  }

  lemma ResumedFired(c: Checkpoint, t: Task, a: Authorities)
    requires ReadError(c, t, a) == None
    ensures Fired(c, a) && a.latest == Some(c) && c.disposition.Some? && c.disposition !in {Some(Terminal), Some(ContinueCurrent)}
  {
    if c.disposition in {Some(Terminal), Some(ContinueCurrent)} {
      NeverResumed(c, t, a);
    }
  }

  /** While nobody owns the task, it is observed, or its latest checkpoint is resumed. */
  lemma Unowned(g: Guard, p: Progress, e: Event, c: Checkpoint)
    requires CanStep(g, p, e) && !p.owned && p.latest == Some(c)
    ensures !e.Acts() && !e.Wrote?
    ensures e.Resumed? ==> e.checkpoint == c && Fired(c, e.authorities)
    ensures !e.Resumed? ==> !After(p, e).owned && After(p, e).latest == Some(c)
  {
    if e.Resumed? {
      ResumedFired(e.checkpoint, e.task, e.authorities);
    }
  }

  /** So it is neither operated on nor written before that checkpoint is resumed. */
  lemma {:induction false} FirstResume(g: Guard, p: Progress, events: seq<Event>, c: Checkpoint, j: nat) returns (k: nat)
    requires IsCourse(g, p, events) && !p.owned && p.latest == Some(c)
    requires j < |events| && (events[j].Acts() || events[j].Wrote?)
    ensures k < j && events[k].Resumed? && events[k].checkpoint == c && Fired(c, events[k].authorities)
    decreases events
  {
    hide CanStep, Fired;
    Unowned(g, p, events[0], c);
    k := 0;
    if !events[0].Resumed? {
      assert events[1..][j - 1] == events[j];
      k := FirstResume(g, After(p, events[0]), events[1..], c, j - 1);
      k := k + 1;
      assert events[1..][k - 1] == events[k];
    }
  }

  /** A parked task is not operated on before its material fields change. */
  lemma MaterialChanged(g: Guard, p: Progress, events: seq<Event>, j: nat) returns (i: nat)
    requires IsCourse(g, p, events) && p.snapshot.Some? && Parked(p.snapshot.value.state)
    requires j < |events| && events[j].Acts()
    ensures i <= j && events[i].Decided? && events[i].turn.current.material != p.snapshot.value.material
  {
    hide IsCourse, CanStep, Decide, OnMaterial, IsRun;
    var m, upTo := p.snapshot.value.material, events[..j + 1];
    CoursePrefix(g, p, events, j + 1);
    CourseIsRun(g, p, upTo);
    TurnsAdmitted(upTo, j);
    if forall i | 0 <= i < |upTo| && upTo[i].Decided? :: upTo[i].turn.current.material == m {
      TurnsOnMaterial(upTo, m);
      ReleaseHolds(g, p.snapshot.value, Turns(upTo));
      assert false;
    }
    i :| 0 <= i < |upTo| && upTo[i].Decided? && upTo[i].turn.current.material != m;
  }

  /** The event at `w` can happen where the course has got to. */
  lemma StepAt(g: Guard, p: Progress, events: seq<Event>, w: nat)
    requires IsCourse(g, p, events) && w < |events|
    ensures CanStep(g, Reached(p, events, w), events[w])
  {
    OutcomeFrom(Steps(g), p, events, w + 1);
  }

  lemma WrittenAt(g: Guard, p: Progress, events: seq<Event>, w: nat) returns (s: Snapshot)
    requires IsCourse(g, p, events) && w < |events| && events[w].Wrote?
    ensures Reached(p, events, w).snapshot == Reached(p, events, w + 1).snapshot == Some(s)
    ensures s.state == events[w].checkpoint.state
  {
    StepAt(g, p, events, w);
    s := Reached(p, events, w).snapshot.value;
    WrittenState(events[w].checkpoint, events[w].task, events[w].authorities);
  }

  /**
   After a checkpoint that gives ownership up, every later admitted action is preceded by the resumption of that very
   checkpoint, after its mechanism fired.
   */
  lemma ActingAfterRelease(g: Guard, p: Progress, events: seq<Event>, w: nat, j: nat) returns (k: nat)
    requires IsCourse(g, p, events) && w < j < |events| && events[j].Acts()
    requires events[w].Wrote? && events[w].checkpoint.disposition != Some(ContinueCurrent)
    ensures w < k < j && events[k].Resumed? && events[k].checkpoint == events[w].checkpoint
    ensures Fired(events[w].checkpoint, events[k].authorities)
  {
    hide IsCourse, CanStep, Fired;
    var q := AfterReleasing(g, p, events, w);
    k := ResumedInRest(g, q, events, w, j, events[w].checkpoint);
  }

  lemma AfterReleasing(g: Guard, p: Progress, events: seq<Event>, w: nat) returns (q: Progress)
    requires IsCourse(g, p, events) && w < |events|
    requires events[w].Wrote? && events[w].checkpoint.disposition != Some(ContinueCurrent)
    ensures IsCourse(g, q, events[w + 1..]) && !q.owned && q.latest == Some(events[w].checkpoint)
  {
    hide IsCourse, CanStep;
    q := Reached(p, events, w + 1);
    CourseFrom(g, p, events, w + 1);
  }

  lemma ResumedInRest(g: Guard, q: Progress, events: seq<Event>, w: nat, j: nat, c: Checkpoint) returns (k: nat)
    requires w < j < |events| && events[j].Acts() && IsCourse(g, q, events[w + 1..])
    requires !q.owned && q.latest == Some(c)
    ensures w < k < j && events[k].Resumed? && events[k].checkpoint == c && Fired(c, events[k].authorities)
  {
    hide IsCourse, CanStep, Fired;
    var rest := events[w + 1..];
    assert rest[j - w - 1] == events[j];
    k := FirstResume(g, q, rest, c, j - w - 1);
    assert rest[k] == events[w + 1 + k];
    k := w + 1 + k;
  }

  /** And when the guard had released the task as well, the material fields have changed in between. */
  lemma MaterialAfterRelease(g: Guard, p: Progress, events: seq<Event>, w: nat, j: nat) returns (s: Snapshot, i: nat)
    requires IsCourse(g, p, events) && w < j < |events| && events[j].Acts()
    requires events[w].Wrote? && Parked(events[w].checkpoint.state)
    ensures Reached(p, events, w).snapshot == Some(s)
    ensures w < i <= j && events[i].Decided? && events[i].turn.current.material != s.material
  {
    hide IsCourse, CanStep;
    var q;
    s, q := AfterWriting(g, p, events, w);
    i := ChangedInRest(g, q, events, w, j, s);
  }

  lemma AfterWriting(g: Guard, p: Progress, events: seq<Event>, w: nat) returns (s: Snapshot, q: Progress)
    requires IsCourse(g, p, events) && w < |events| && events[w].Wrote?
    ensures Reached(p, events, w).snapshot == q.snapshot == Some(s) && s.state == events[w].checkpoint.state
    ensures IsCourse(g, q, events[w + 1..])
  {
    hide IsCourse, CanStep;
    s := WrittenAt(g, p, events, w);
    q := Reached(p, events, w + 1);
    CourseFrom(g, p, events, w + 1);
  }

  lemma ChangedInRest(g: Guard, q: Progress, events: seq<Event>, w: nat, j: nat, s: Snapshot) returns (i: nat)
    requires w < j < |events| && events[j].Acts() && IsCourse(g, q, events[w + 1..])
    requires q.snapshot == Some(s) && Parked(s.state)
    ensures w < i <= j && events[i].Decided? && events[i].turn.current.material != s.material
  {
    hide IsCourse, CanStep;
    var rest := events[w + 1..];
    assert rest[j - w - 1] == events[j];
    i := MaterialChanged(g, q, rest, j - w - 1);
    assert rest[i] == events[w + 1 + i];
    i := w + 1 + i;
  }

  lemma WrittenState(c: Checkpoint, t: Task, a: Authorities)
    requires WriteError(c, t, a) == None
    ensures c.state == a.currentState
  {
  }

  /** After a terminal checkpoint a task is never resumed, written or operated on again. */
  lemma {:induction false} NothingAfterTerminal(g: Guard, p: Progress, events: seq<Event>)
    requires IsCourse(g, p, events) && !p.owned && p.latest.Some? && p.latest.value.disposition == Some(Terminal)
    ensures forall j | 0 <= j < |events| :: events[j].Decided? && events[j].turn.action == Observe
    decreases events
  {
    if events != [] {
      if events[0].Resumed? {
        ResumedFired(events[0].checkpoint, events[0].task, events[0].authorities);
        assert false;
      }
      NothingAfterTerminal(g, After(p, events[0]), events[1..]);
      assert forall j | 1 <= j < |events| :: events[j] == events[1..][j - 1];
    }
  }

  // ---------------------------------------------------------------- resumed again

  /** Nothing is written from event `j` up to event `k`. */
  ghost predicate Unwritten(events: seq<Event>, j: nat, k: nat)
    requires k <= |events|
  {
    forall i | j <= i < k :: !events[i].Wrote?
  }

  lemma {:induction false} LatestKept(p: Progress, events: seq<Event>, j: nat, k: nat)
    requires j <= k <= |events| && Unwritten(events, j, k)
    ensures Reached(p, events, k).latest == Reached(p, events, j).latest
    decreases k
  {
    if j < k {
      LatestKept(p, events, j, k - 1);
      assert !events[k - 1].Wrote?;
    }
  }

  lemma ReadAgain(c: Checkpoint, t: Task, a: Authorities, later: Task, again: Authorities)
    requires GuardedBy(a) && ReadError(c, t, a) == None
    requires GuardedBy(again) && again.latest == Some(c) && ValidTask(later) && OnLineage(c, later)
    ensures a.latest == Some(c) && (ReadError(c, later, again) == None <==> Fired(c, again))
  {
    hide IsRepository, Given, IsSha, UniqueGiven, ValidTask, OnLineage;
    assert a.releases(c.state) == again.releases(c.state) && a.terminal(c.state) == again.terminal(c.state);
  }

  /**
   Until the next checkpoint a checkpoint that was resumed is resumed again exactly when its mechanism fired, the
   transition is proven and the state matches; that a worker owns the task already is not asked.
   */
  lemma ResumedAgainExactly(g: Guard, p: Progress, events: seq<Event>, j: nat, k: nat, later: Task, again: Authorities)
    requires IsCourse(g, p, events) && j < k <= |events| && events[j].Resumed? && Unwritten(events, j, k)
    requires GuardedBy(again) && again.latest == Some(events[j].checkpoint)
    requires ValidTask(later) && OnLineage(events[j].checkpoint, later)
    ensures CanStep(g, Reached(p, events, k), Resumed(events[j].checkpoint, later, again)) <==> Fired(events[j].checkpoint, again)
  {
    hide ReadError, WriteError, Decide, ValidTask, Fired;
    StepAt(g, p, events, j);
    LatestKept(p, events, j, k);
    ReadAgain(events[j].checkpoint, events[j].task, events[j].authorities, later, again);
  }

  /** So the same answers of the authorities resume it twice, and each resumption makes an owner. */
  lemma ResumedTwice(g: Guard, p: Progress, e: Event)
    requires e.Resumed? && CanStep(g, p, e)
    ensures IsCourse(g, p, [e, e]) && Reached(p, [e, e], 1).owned
  {
    assert [e, e][1..] == [e] && [e][1..] == [];
    assert Outcome(Steps(g), After(p, e), [e]) == Some(After(After(p, e), e));
  }

  lemma LettersGiven()
    ensures Given("t") && Given("l") && Given("b") && Given("p") && Given("x") && Given("c") && Given("n") && IsRepository("o/r")
    ensures UniqueGiven([])
  {
    assert Find("o/r", '/') == Some(1);
  }

  function SomeHead(): (s: string)
    ensures IsSha(s)
  {
    seq(40, _ => 'a')
  }

  /** A checkpoint that stops the work until the owner calls again. */
  function StoppedCheckpoint(): Checkpoint
  {
    Checkpoint("o/r", "t", "l", "b", false, None, SomeHead(), "p", BLOCKED, "x", [], [], "c", [], true,
               Some(StopReinvokeRequired), Some(OwnerReinvoke), None, "n")
  }

  lemma StoppedShape()
    ensures WellShaped(StoppedCheckpoint())
  {
    hide Given, IsRepository, IsSha, UniqueGiven;
    LettersGiven();
  }

  /** Authorities that answer everything in favour of resuming it. */
  function OwnerCalls(): (a: Authorities)
    ensures GuardedBy(a) && ReadError(StoppedCheckpoint(), StoppedTask(), a) == None
  {
    hide Given, IsRepository, IsSha, WellShaped;
    StoppedShape();
    Authorities(Some(StoppedCheckpoint()), false, BLOCKED, s => Releases(s), s => s == DONE, _ => true, (_, _) => true,
                (_, _) => true, (_, _) => true, false, true, _ => true, _ => true, (_, _) => true)
  }

  function StoppedTask(): (t: Task)
    ensures ValidTask(t) && OnLineage(StoppedCheckpoint(), t)
  {
    hide Given, IsRepository, IsSha;
    LettersGiven();
    Task("o/r", "t", "l", "b", false, None, SomeHead(), "n")
  }

  /** Two resumptions of one checkpoint, with no checkpoint between them, in one course. */
  lemma TwoOwners(g: Guard)
    ensures exists p: Progress, e: Event :: e.Resumed? && e.checkpoint == StoppedCheckpoint() && IsCourse(g, p, [e, e])
  {
    hide ReadError, StoppedTask;
    ResumedTwice(g, Progress(None, Some(StoppedCheckpoint()), false), Resumed(StoppedCheckpoint(), StoppedTask(), OwnerCalls()));
  }
}
