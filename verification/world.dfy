/**
 The system calls of the publisher. Other processes step before every call as `schedule` says, so a
 statement for every `schedule` is a statement for every interleaving; `faults` says which calls fail.
 The world keeps the history of the stored states and its own record of what the publisher did to them.
 */
module SystemCalls {
  import opened Wrappers
  import opened Strings
  import opened RefStorage
  import opened GitStore

  /** What a descriptor refers to for as long as it is open. */
  datatype Handle = OnFile(ino: Ino) | OnDirectory | OnLock

  datatype Fd = Fd(number: nat, handle: Handle)

  datatype Opening = Opened(fd: Fd) | Missing | Fault

  datatype Entering = Entered(fd: Fd, dir: DirId) | NoDirectory | NotEntered

  datatype Stating = Stated(ino: Ino, regular: bool) | NotStated

  datatype Classification = PUBLISHED | NOT_PUBLISHED | REMOTE_HEAD_DRIFT

  function Classify(remote: string, expected: string, candidate: string): Classification
  {
    if remote == candidate then PUBLISHED
    else if remote == expected then NOT_PUBLISHED
    else REMOTE_HEAD_DRIFT
  }

  /** A classification: the index at which it was made, and of what. */
  datatype Judged = Judged(at: nat, head: string, state: Classification)

  /** A period in which the reader holds the branch lock in directory `dir`. */
  datatype Hold = Hold(since: nat, dir: DirId)

  /** What became of a lock file at the end: removed, not removed although that was tried, or left without a try. */
  datatype Fate = Removed | RemovalFailed | Abandoned

  /** A lock of the reader that was taken and given up, and what became of its file. */
  datatype Period = Period(dir: DirId, since: nat, until: nat, fate: Fate)

  /**
   What the publisher does to the bundle and to the branch. A bundle is known by the number of the call that
   wrote it. A push notes when it was over and which step moved the branch, if one did.
   */
  datatype Effect =
    | Created(id: nat)
    | Verified(id: nat)
    | Listed(id: nat, head: Option<string>)
    | Placed(id: nat)
    | Pushed(from: string, to: string, endedAt: nat, movedAt: Option<nat>)
  {
    ghost predicate PushOf(expected: string, candidate: string) {
      Pushed? && from == expected && to == candidate
    }

    ghost predicate MovesAt(k: nat) {
      Pushed? && movedAt == Some(k)
    }
  }

  /** The hold on the branch lock, the locks given up, the classifications and effects on record, and the bundle files. */
  class Ledger {
    ghost var hold: Option<Hold>
    ghost var periods: seq<Period>
    ghost var judged: seq<Judged>
    ghost var log: seq<Effect>
    var temporary: Option<nat>
    var bundle: Option<nat>

    constructor (bundle: Option<nat>)
      ensures hold == None && periods == [] && judged == [] && log == [] && temporary == None && this.bundle == bundle
    {
      hold, periods, judged, log, temporary, this.bundle := None, [], [], [], None, bundle;
    }
  }

  class World {
    const ledger: Ledger
    const ref: string
    const depth: nat
    const schedule: nat -> seq<Step>
    const faults: nat -> bool
    const newDirectory: nat -> DirId
    const outer: (nat, nat) -> DirId
    const verdicts: nat -> bool
    const gitReply: (nat, Option<string>) -> Option<string>
    const debris: nat -> bool
    const advertised: nat -> Option<string>
    const commits: nat -> Option<Ino>
    const exits: nat -> bool

    var clock: nat
    var store: Store
    var fds: nat
    var open: set<Fd>
    ghost var history: seq<Store>
    ghost var failed: nat

    constructor (ref: string, depth: nat, store: Store, schedule: nat -> seq<Step>, faults: nat -> bool,
                 verdicts: nat -> bool, newDirectory: nat -> DirId, outer: (nat, nat) -> DirId,
                 gitReply: (nat, Option<string>) -> Option<string>, debris: nat -> bool,
                 advertised: nat -> Option<string>, commits: nat -> Option<Ino>, exits: nat -> bool, bundle: Option<nat>)
      requires IsRefName(ref) && Sound(store) && forall d {:trigger LockIn(store, d)} :: LockIn(store, d) != Some(Us)
      ensures Valid() && this.ref == ref && this.store == store && this.schedule == schedule && ledger.bundle == bundle
      ensures this.faults == faults && this.verdicts == verdicts && clock == 0 && failed == 0 && history == [store]
      ensures open == {} && fresh(ledger) && ledger.hold == None && ledger.periods == [] && ledger.log == []
    {
      this.ref, this.depth, this.store := ref, depth, store;
      this.schedule, this.faults, this.verdicts := schedule, faults, verdicts;
      this.newDirectory, this.outer, this.gitReply := newDirectory, outer, gitReply;
      this.debris, this.advertised, this.commits, this.exits := debris, advertised, commits, exits;
      ledger := new Ledger(bundle);
      clock, fds, open, history, failed := 0, 0, {}, [store], 0;
    }

    /** Every other process respects the per-ref lock. */
    ghost predicate OnlyGit()
    {
      forall n: nat, k: nat | k < |schedule(n)| :: schedule(n)[k].Git?
    }

    /** Before and during the next call after `n` no other process acts, the call does not fail, and a check finds what it wants. */
    ghost predicate Spared(n: nat)
    {
      schedule(n) == [] && !faults(n + 1) && verdicts(n + 1)
    }

    /** No call is ever disturbed; what exit code a push reports is not part of it. */
    ghost predicate Calm()
    {
      (forall n: nat :: Spared(n)) &&
      (forall n: nat, level: nat {:trigger outer(n, level)} :: outer(n, level) == outer(0, level))
    }

    ghost predicate Ordered(h: seq<Store>, j: nat, k: nat)
      requires j <= k < |h|
    {
      Sound(h[j]) && Kept(h[j], h[k])
    }

    /** At `k` the lock stands, and neither the loose name nor the head has changed since it was taken. */
    ghost predicate Steady(h: seq<Store>, p: Hold, k: nat)
      requires p.since <= k < |h|
    {
      Locked(h[k], p.dir) && LooseIn(h[k], p.dir) == LooseIn(h[p.since], p.dir) && Head(h[k], ref) == Head(h[p.since], ref)
    }

    ghost predicate HeldSince(h: seq<Store>, p: Hold)
    {
      p.since < |h| && forall k: nat | p.since <= k < |h| :: Steady(h, p, k)
    }

    /** The hold lasted until index `until`, and a file that was abandoned then stands there. */
    ghost predicate Ended(h: seq<Store>, p: Hold, until: nat, fate: Fate)
    {
      until < |h| && HeldSince(h[..until], p) && (fate == Abandoned ==> LockIn(h[until], p.dir) == Some(Us))
    }

    /** What holds of the stored states when every other process respects the lock. */
    ghost predicate Orderly(h: seq<Store>, p: Option<Hold>)
    {
      (forall j: nat, k: nat | j <= k < |h| :: Ordered(h, j, k)) && (p.Some? ==> HeldSince(h, p.value))
    }

    ghost predicate Stuck(periods: seq<Period>, d: DirId)
    {
      exists i | 0 <= i < |periods| :: periods[i].dir == d && !periods[i].fate.Removed?
    }

    /** A lock of the reader that stands is held, or was given up without being removed. */
    ghost predicate LocksKnown(s: Store, p: Option<Hold>, periods: seq<Period>)
    {
      forall d {:trigger LockIn(s, d)} | LockIn(s, d) == Some(Us) :: (p.Some? && p.value.dir == d) || Stuck(periods, d)
    }

    /** A step that another process takes on schedule. */
    ghost predicate Scheduled(s: Store, t: Store)
    {
      exists turn: nat, n: nat :: n < |schedule(turn)| && t == Next(s, schedule(turn)[n], ref)
    }

    /** The state at index `at` is a move of the branch between two heads. */
    ghost predicate MovedAt(h: seq<Store>, at: nat, from: string, to: string)
    {
      0 < at < |h| && Head(h[at - 1], ref) == Some(from) && Head(h[at], ref) == Some(to)
    }

    /** The step to `k` left the head alone, is another process's, or is the move of a push on record. */
    ghost predicate Explained(h: seq<Store>, log: seq<Effect>, k: nat)
      requires 0 < k < |h|
    {
      Head(h[k], ref) == Head(h[k - 1], ref) || Scheduled(h[k - 1], h[k]) || (exists i | 0 <= i < |log| :: log[i].MovesAt(k))
    }

    ghost predicate PushHolds(h: seq<Store>, e: Effect)
    {
      e.Pushed? ==>
        e.endedAt < |h| && (e.movedAt.Some? ==> e.movedAt.value <= e.endedAt && MovedAt(h, e.movedAt.value, e.from, e.to))
    }

    ghost predicate PeriodHolds(h: seq<Store>, p: Period)
    {
      p.since < p.until < |h| && LockIn(h[p.since], p.dir) == Some(Us) && (p.fate.Removed? ==> LockIn(h[p.until], p.dir) == None)
    }

    /** The record accounts for every change of the branch, and what it notes is so. */
    ghost predicate Recorded(h: seq<Store>, log: seq<Effect>, periods: seq<Period>)
    {
      (forall k: nat | 0 < k < |h| :: Explained(h, log, k)) &&
      (forall i {:trigger PushHolds(h, log[i])} | 0 <= i < |log| :: PushHolds(h, log[i])) &&
      (forall i {:trigger PeriodHolds(h, periods[i])} | 0 <= i < |periods| :: PeriodHolds(h, periods[i]))
    }

    /** What holds of the history, the hold and the record in every run. */
    ghost predicate Sane(h: seq<Store>, p: Option<Hold>, periods: seq<Period>, log: seq<Effect>)
    {
      IsRefName(ref) && h != [] && Recorded(h, log, periods) &&
      (OnlyGit() ==> Orderly(h, p) && LocksKnown(h[|h| - 1], p, periods))
    }

    ghost predicate Below(open: set<Fd>, bound: nat)
    {
      forall fd | fd in open :: fd.number < bound
    }

    ghost predicate Valid()
      reads this, ledger
    {
      history != [] && history[|history| - 1] == store && Below(open, fds) == true &&
      Sane(history, ledger.hold, ledger.periods, ledger.log) == true
    }

    ghost function Now(): nat
      reads this
      requires history != []
    {
      |history| - 1
    }

    /** What every call leaves in place. */
    twostate predicate Advanced()
      reads this
    {
      old(clock) <= clock && old(history) <= history && old(failed) <= failed
    }

    /** Nothing more than `base` is open, unless a close failed; then the error is raw. */
    twostate predicate Tidy(base: set<Fd>, raw: bool)
      reads this
    {
      base <= open && (open == base || (old(failed) < failed && raw))
    }

    lemma RecordedStep(h: seq<Store>, log: seq<Effect>, periods: seq<Period>, s: Store, t: Store)
      requires h != [] && h[|h| - 1] == s && Recorded(h, log, periods)
      requires Scheduled(s, t) || Head(t, ref) == Head(s, ref)
      ensures Recorded(h + [t], log, periods)
    {
      forall k: nat | 0 < k < |h| + 1
        ensures Explained(h + [t], log, k)
      {
        if k < |h| {
          assert Explained(h, log, k);
        }
      }
      RecordLater(h, log, periods, t);
    }

    lemma RecordLater(h: seq<Store>, log: seq<Effect>, periods: seq<Period>, t: Store)
      requires Recorded(h, log, periods)
      ensures forall i | 0 <= i < |log| :: PushHolds(h + [t], log[i])
      ensures forall i | 0 <= i < |periods| :: PeriodHolds(h + [t], periods[i])
    {
      forall i | 0 <= i < |log|
        ensures PushHolds(h + [t], log[i])
      {
        assert PushHolds(h, log[i]);
      }
      forall i | 0 <= i < |periods|
        ensures PeriodHolds(h + [t], periods[i])
      {
        assert PeriodHolds(h, periods[i]);
      }
    }

    lemma ExplainedLonger(h: seq<Store>, log: seq<Effect>, e: Effect, k: nat)
      requires 0 < k < |h| && Explained(h, log, k)
      ensures Explained(h, log + [e], k)
    {
      if i :| 0 <= i < |log| && log[i].MovesAt(k) {
        assert (log + [e])[i].MovesAt(k);
      }
    }

    lemma RecordedEffect(h: seq<Store>, log: seq<Effect>, periods: seq<Period>, e: Effect)
      requires Recorded(h, log, periods) && PushHolds(h, e)
      ensures Recorded(h, log + [e], periods)
    {
      forall k: nat | 0 < k < |h|
        ensures Explained(h, log + [e], k)
      {
        ExplainedLonger(h, log, e, k);
      }
      forall i | 0 <= i < |log + [e]|
        ensures PushHolds(h, (log + [e])[i])
      {
        if i < |log| {
          assert PushHolds(h, log[i]);
        }
      }
    }

    /** The record of a push that moves the branch with the very last step. */
    lemma RecordedMove(h: seq<Store>, log: seq<Effect>, periods: seq<Period>, t: Store, e: Effect)
      requires h != [] && Recorded(h, log, periods) && PushHolds(h + [t], e) && e.MovesAt(|h|)
      ensures Recorded(h + [t], log + [e], periods)
    {
      RecordLater(h, log, periods, t);
      forall k: nat | 0 < k < |h| + 1
        ensures Explained(h + [t], log + [e], k)
      {
        if k < |h| {
          ExplainedLonger(h, log, e, k);
          assert Explained(h, log + [e], k);
        } else {
          assert (log + [e])[|log|].MovesAt(k);
        }
      }
      forall i | 0 <= i < |log + [e]|
        ensures PushHolds(h + [t], (log + [e])[i])
      {
        if i < |log| {
          assert PushHolds(h + [t], log[i]);
        }
      }
    }

    lemma RecordedPeriod(h: seq<Store>, log: seq<Effect>, periods: seq<Period>, p: Period)
      requires Recorded(h, log, periods) && PeriodHolds(h, p)
      ensures Recorded(h, log, periods + [p])
    {
      forall i | 0 <= i < |periods + [p]|
        ensures PeriodHolds(h, (periods + [p])[i])
      {
        if i < |periods| {
          assert PeriodHolds(h, periods[i]);
        }
      }
    }

    lemma OrderlyGit(h: seq<Store>, p: Option<Hold>, g: GitStep)
      requires IsRefName(ref) && h != [] && Orderly(h, p)
      ensures Orderly(h + [Next(h[|h| - 1], Git(g), ref)], p)
    {
      var n := |h| - 1;
      var t := Next(h[n], Git(g), ref);
      assert Ordered(h, n, n);
      SoundKept(h[n], g, ref);
      OrderlyAppend(h, t);
      if p.Some? {
        assert Steady(h, p.value, n);
        LockHoldsHead(h[n], g, ref, p.value.dir);
        forall k: nat | p.value.since <= k < |h| + 1
          ensures Steady(h + [t], p.value, k)
        {
          if k < |h| {
            assert Steady(h, p.value, k);
          }
        }
      }
    }

    lemma OrderlyAppend(h: seq<Store>, t: Store)
      requires h != [] && Orderly(h, None) && Sound(t) && Kept(h[|h| - 1], t)
      ensures Orderly(h + [t], None)
    {
      forall j: nat, k: nat | j <= k < |h| + 1
        ensures Ordered(h + [t], j, k)
      {
        if k < |h| {
          assert Ordered(h, j, k);
        } else if j < |h| {
          assert Ordered(h, j, |h| - 1);
          KeptTransitive(h[j], h[|h| - 1], t);
        }
      }
    }

    /** Two instants of a hold agree on the loose name and on the head. */
    lemma SteadyBetween(h: seq<Store>, p: Hold, periods: seq<Period>, log: seq<Effect>, j: nat, k: nat)
      requires Sane(h, Some(p), periods, log) && OnlyGit() && p.since <= j < |h| && p.since <= k < |h|
      ensures LooseIn(h[j], p.dir) == LooseIn(h[k], p.dir) && Head(h[j], ref) == Head(h[k], ref)
      ensures h[j].branchDir == Some(p.dir)
    {
      assert Steady(h, p, j) && Steady(h, p, k);
    }

    lemma HeldThroughout(h: seq<Store>, p: Hold, periods: seq<Period>, log: seq<Effect>)
      requires Sane(h, Some(p), periods, log) && OnlyGit()
      ensures HeldSince(h, p) && LockIn(h[|h| - 1], p.dir) == Some(Us)
    {
      assert Steady(h, p, |h| - 1);
    }

    lemma HeadSinceLock()
      requires Valid() && OnlyGit() && ledger.hold.Some? && ledger.hold.value.since < |history|
      ensures Head(history[ledger.hold.value.since], ref) == Head(store, ref)
    {
      SteadyBetween(history, ledger.hold.value, ledger.periods, ledger.log, ledger.hold.value.since, Now());
    }

    lemma HeldHead(h: seq<Store>, n: nat, p: Hold, head: Option<string>)
      requires n <= |h| && HeldSince(h[..n], p) && Head(h[p.since], ref) == head
      ensures forall k: nat | p.since <= k < n :: Head(h[k], ref) == head
    {
      forall k: nat | p.since <= k < n
        ensures Head(h[k], ref) == head
      {
        assert Steady(h[..n], p, k);
      }
    }

    /** Under the lock, the file that the loose name led to says what the head is, whenever it is read. */
    lemma LooseHeadStands(openedAt: nat, readAt: nat, ino: Ino, bytes: string)
      requires Valid() && OnlyGit() && ledger.hold.Some?
      requires ledger.hold.value.since <= openedAt <= readAt < |history|
      requires LooseIn(history[openedAt], ledger.hold.value.dir) == Some(ino) && FileAt(history[readAt], ino) == Regular(bytes)
      ensures Head(store, ref) == ParseLoose(bytes)
    {
      LooseHeadAt(history, ledger.hold.value, ledger.periods, ledger.log, openedAt, readAt, ino, bytes);
    }

    lemma LooseHeadAt(h: seq<Store>, p: Hold, periods: seq<Period>, log: seq<Effect>, openedAt: nat, readAt: nat,
                      ino: Ino, bytes: string)
      requires Sane(h, Some(p), periods, log) && OnlyGit() && p.since <= openedAt <= readAt < |h|
      requires LooseIn(h[openedAt], p.dir) == Some(ino) && FileAt(h[readAt], ino) == Regular(bytes)
      ensures Head(h[|h| - 1], ref) == ParseLoose(bytes)
    {
      var s := h[readAt];
      SteadyBetween(h, p, periods, log, openedAt, readAt);
      SteadyBetween(h, p, periods, log, readAt, |h| - 1);
      HeadFromLoose(s, p.dir, ref, ino, bytes);
    }

    /** Under the lock, packed-refs as pinned while the loose name was absent says what the head is. */
    lemma PackedHeadStands(absentAt: nat, openedAt: nat, readAt: nat, ino: Ino, bytes: string)
      requires Valid() && OnlyGit() && ledger.hold.Some?
      requires ledger.hold.value.since <= absentAt <= openedAt <= readAt < |history|
      requires LooseIn(history[absentAt], ledger.hold.value.dir) == None && history[openedAt].packed == Some(ino)
      requires FileAt(history[readAt], ino) == Regular(bytes)
      ensures Head(store, ref) == ParsePacked(bytes, ref)
    {
      PackedHeadAt(history, ledger.hold.value, ledger.periods, ledger.log, absentAt, openedAt, readAt, ino, bytes);
    }

    lemma PackedHeadAt(h: seq<Store>, p: Hold, periods: seq<Period>, log: seq<Effect>, absentAt: nat, openedAt: nat,
                       readAt: nat, ino: Ino, bytes: string)
      requires Sane(h, Some(p), periods, log) && OnlyGit() && p.since <= absentAt <= openedAt <= readAt < |h|
      requires LooseIn(h[absentAt], p.dir) == None && h[openedAt].packed == Some(ino) && FileAt(h[readAt], ino) == Regular(bytes)
      ensures Head(h[|h| - 1], ref) == ParsePacked(bytes, ref)
    {
      hide Sane, OnlyGit, Head;
      SteadyBetween(h, p, periods, log, openedAt, |h| - 1);
      FileKept(h, p, periods, log, openedAt, readAt);
      SteadyBetween(h, p, periods, log, openedAt, absentAt);
      HeadFromPacked(h[openedAt], p.dir, ref, ino, bytes);
    }

    /** The packed-refs file of an earlier state keeps its contents. */
    lemma FileKept(h: seq<Store>, p: Hold, periods: seq<Period>, log: seq<Effect>, j: nat, k: nat)
      requires Sane(h, Some(p), periods, log) && OnlyGit() && j <= k < |h|
      ensures h[j].packed.Some? ==> FileAt(h[k], h[j].packed.value) == FileAt(h[j], h[j].packed.value)
    {
      assert Ordered(h, j, k);
    }

    lemma SaneStep(h: seq<Store>, p: Option<Hold>, periods: seq<Period>, log: seq<Effect>, s: Store, step: Step)
      requires Sane(h, p, periods, log) && h[|h| - 1] == s && (OnlyGit() ==> step.Git?)
      requires Scheduled(s, Next(s, step, ref)) || Head(Next(s, step, ref), ref) == Head(s, ref)
      ensures Sane(h + [Next(s, step, ref)], p, periods, log)
    {
      if OnlyGit() {
        OrderlyGit(h, p, step.step);
        NoForeignLock(s, step.step, ref);
      }
      RecordedStep(h, log, periods, s, Next(s, step, ref));
    }

    /** One step, of another process or of the publisher itself, that the record explains. */
    method TakeStep(step: Step)
      requires Valid() && (OnlyGit() ==> step.Git?)
      requires Scheduled(store, Next(store, step, ref)) || Head(Next(store, step, ref), ref) == Head(store, ref)
      modifies `store, `history
      ensures Valid() && Advanced() && store == Next(old(store), step, ref) && history == old(history) + [store]
    {
      SaneStep(history, ledger.hold, ledger.periods, ledger.log, store, step);
      store := Next(store, step, ref);
      history := history + [store];
    }

    /** A step of the publisher's own Git process that leaves the head alone. */
    method Prepare(g: GitStep)
      requires Valid() && (g.TakeLock? || g.DropLock? || g.MakeDirectory?)
      modifies `store, `history
      ensures Valid() && Advanced() && store == Next(old(store), Git(g), ref) && history == old(history) + [store]
    {
      hide Sane;
      PreparationKeepsHead(store, g, ref);
      TakeStep(Git(g));
    }

    /** The other processes take their turn. */
    method Interfere()
      requires Valid()
      modifies `clock, `store, `history
      ensures Valid() && Advanced() && clock == old(clock) + 1 && (schedule(old(clock)) == [] ==> store == old(store))
    {
      var steps := schedule(clock);
      ghost var turn := clock;
      clock := clock + 1;
      for n := 0 to |steps|
        invariant Valid() && old(history) <= history && clock == turn + 1 && (steps == [] ==> store == old(store))
      {
        assert OnlyGit() ==> schedule(turn)[n].Git?;
        assert Scheduled(store, Next(store, schedule(turn)[n], ref));
        TakeStep(steps[n]);
      }
    }

    method NewFd(handle: Handle) returns (fd: Fd)
      requires Valid()
      modifies `fds, `open
      ensures Valid() && fd.handle == handle && fd !in old(open) && open == old(open) + {fd}
    {
      hide Sane;
      fd := Fd(fds, handle);
      fds, open := fds + 1, open + {fd};
    }

    /** The next call number and whether that call fails. */
    method Begin() returns (fails: bool)
      requires Valid()
      modifies `clock, `store, `history
      ensures Valid() && Advanced() && clock == old(clock) + 1 && (fails <==> faults(clock))
      ensures Spared(old(clock)) ==> store == old(store) && !fails
    {
      hide Sane;
      Interfere();
      fails := faults(clock);
    }

    /** `os.open` of a directory of the repository itself. */
    method OpenHandle() returns (r: Opening)
      requires Valid()
      modifies `clock, `store, `history, `fds, `open
      ensures Valid() && Advanced()
      ensures r.Opened? ==> r.fd !in old(open) && open == old(open) + {r.fd}
      ensures !r.Opened? ==> open == old(open)
      ensures Spared(old(clock)) ==> store == old(store) && r.Opened?
    {
      hide Sane;
      var fails := Begin();
      if fails {
        return Fault;
      }
      var fd := NewFd(OnDirectory);
      r := Opened(fd);
    }

    /** The directory that a component of the branch path leads to at a given call; the last one is in storage. */
    function Leads(level: nat, at: nat): Option<DirId>
      reads `store
    {
      if level < depth then Some(outer(at, level)) else store.branchDir
    }

    /** During the calls after `from` and up to `to`, this level of the branch path led to `dir`. */
    ghost predicate Led(level: nat, dir: DirId, from: nat, to: nat)
    {
      exists at: nat {:trigger outer(at, level)} :: from < at <= to && outer(at, level) == dir
    }

    /** Each level above the branch's own directory led to the directory listed. */
    ghost predicate AllLed(dirs: seq<DirId>, from: nat, to: nat)
    {
      |dirs| <= depth && forall level: nat | level < |dirs| :: Led(level, dirs[level], from, to)
    }

    lemma AllLedLonger(dirs: seq<DirId>, dir: DirId, from: nat, until: nat, to: nat)
      requires AllLed(dirs, from, until) && |dirs| < depth && from <= until <= to && Led(|dirs|, dir, until, to)
      ensures AllLed(dirs + [dir], from, to)
    {
      forall level: nat | level < |dirs| + 1
        ensures Led(level, (dirs + [dir])[level], from, to)
      {
        if level < |dirs| {
          assert Led(level, dirs[level], from, until);
        }
      }
    }

    lemma AllLedLater(dirs: seq<DirId>, from: nat, until: nat, to: nat)
      requires AllLed(dirs, from, until) && until <= to
      ensures AllLed(dirs, from, to)
    {
      forall level: nat | level < |dirs|
        ensures Led(level, dirs[level], from, to)
      {
        assert Led(level, dirs[level], from, until);
      }
    }

    /** `os.open` of one directory component, and what identifies the directory; component `depth` is the last. */
    method OpenComponent(level: nat) returns (r: Entering)
      requires Valid()
      modifies `clock, `store, `history, `fds, `open
      ensures Valid() && Advanced() && clock == old(clock) + 1
      ensures r.Entered? ==> r.fd !in old(open) && open == old(open) + {r.fd} && Leads(level, clock) == Some(r.dir)
      ensures !r.Entered? ==> open == old(open)
      ensures Spared(old(clock)) ==> store == old(store) && (store.branchDir.Some? ==> r.Entered?)
    {
      hide Sane;
      var fails := Begin();
      if fails {
        return NotEntered;
      }
      if Leads(level, clock) == None {
        return NoDirectory;
      }
      var fd := NewFd(OnDirectory);
      r := Entered(fd, Leads(level, clock).value);
    }

    /** `os.mkdir` of a missing directory of the branch path; an existing one is not an error. */
    method MakeComponent() returns (ok: bool)
      requires Valid()
      modifies `clock, `store, `history
      ensures Valid() && Advanced()
    {
      hide Sane;
      var fails := Begin();
      if fails {
        return false;
      }
      if store.branchDir == None {
        var dir := newDirectory(clock);
        if dir in store.dirs {
          return false;
        }
        Prepare(MakeDirectory(dir));
      }
      ok := true;
    }

    ghost predicate Lockable(s: Store, d: DirId)
    {
      s.branchDir == Some(d) && d in s.dirs && !s.dirs[d].removed && s.dirs[d].lock == None
    }

    function WithLock(s: Store, d: DirId): Store
      requires d in s.dirs
    {
      s.(dirs := s.dirs[d := s.dirs[d].(lock := Some(Us))])
    }

    /** Creates the lock file, failing when there is one or when the directory is gone. */
    method CreateLock(d: DirId, ghost seenAt: nat) returns (r: Opening)
      requires Valid() && ledger.hold == None
      requires seenAt < |history| && history[seenAt].branchDir == Some(d)
      modifies `clock, `store, `history, `fds, `open, ledger`hold
      ensures Valid() && Advanced() && clock == old(clock) + 1
      ensures r.Opened? ==> r.fd !in old(open) && open == old(open) + {r.fd}
      ensures r.Opened? ==> ledger.hold == Some(Hold(Now(), d)) && LockIn(store, d) == Some(Us)
      ensures !r.Opened? ==> open == old(open) && ledger.hold == None
      ensures Spared(old(clock)) && Lockable(old(store), d) ==> r.Opened? && store == WithLock(old(store), d)
    {
      hide Sane;
      var fails := Begin();
      r := Fault;
      if !fails && d in store.dirs && !store.dirs[d].removed && store.dirs[d].lock.None? {
        PlaceLock(d, seenAt);
        var fd := NewFd(OnLock);
        r := Opened(fd);
      }
    }

    method PlaceLock(d: DirId, ghost seenAt: nat)
      requires Valid() && ledger.hold == None && d in store.dirs && !store.dirs[d].removed
      requires seenAt < |history| && history[seenAt].branchDir == Some(d)
      modifies `store, `history, ledger`hold
      ensures Valid() && Advanced() && ledger.hold == Some(Hold(Now(), d)) && LockIn(store, d) == Some(Us)
      ensures store == WithLock(old(store), d)
    {
      SaneLock(history, ledger.periods, ledger.log, seenAt, store, d);
      store := WithLock(store, d);
      history := history + [store];
      ledger.hold := Some(Hold(|history| - 1, d));
    }

    lemma SaneLock(h: seq<Store>, periods: seq<Period>, log: seq<Effect>, seenAt: nat, s: Store, d: DirId)
      requires Sane(h, None, periods, log) && h[|h| - 1] == s && d in s.dirs && !s.dirs[d].removed
      requires seenAt < |h| && h[seenAt].branchDir == Some(d)
      ensures Sane(h + [WithLock(s, d)], Some(Hold(|h|, d)), periods, log)
    {
      if OnlyGit() {
        NewHold(h, seenAt, s, WithLock(s, d), d);
        LocksBefore(s, WithLock(s, d), d, periods);
      }
      LockKeepsHead(s, d);
      RecordedStep(h, log, periods, s, WithLock(s, d));
    }

    lemma NewHold(h: seq<Store>, seenAt: nat, s: Store, t: Store, d: DirId)
      requires h != [] && h[|h| - 1] == s && Orderly(h, None) && seenAt < |h| && h[seenAt].branchDir == Some(d)
      requires d in s.dirs && !s.dirs[d].removed && t == WithLock(s, d)
      ensures Orderly(h + [t], Some(Hold(|h|, d)))
    {
      assert Ordered(h, seenAt, |h| - 1) && Ordered(h, |h| - 1, |h| - 1);
      OrderlyAppend(h, t);
    }

    lemma LocksBefore(s: Store, t: Store, d: DirId, periods: seq<Period>)
      requires LocksKnown(s, None, periods) && d in s.dirs && t == WithLock(s, d)
      ensures forall since: nat :: LocksKnown(t, Some(Hold(since, d)), periods)
    {
      forall e {:trigger LockIn(t, e)} | LockIn(t, e) == Some(Us) && e != d
        ensures Stuck(periods, e)
      {
        assert LockIn(s, e) == Some(Us);
      }
    }

    lemma LockKeepsHead(s: Store, d: DirId)
      requires d in s.dirs
      ensures Head(WithLock(s, d), ref) == Head(s, ref) && WithLock(s, d).branchDir == s.branchDir
      ensures Head(WithoutLock(s, d), ref) == Head(s, ref)
    {
    }

    function WithoutLock(s: Store, d: DirId): Store
      requires d in s.dirs
    {
      s.(dirs := s.dirs[d := s.dirs[d].(lock := None)])
    }

    /** Removes the lock file that is held; its period ends and is on record, with the fate of the file. */
    method UnlinkLock(d: DirId) returns (ok: bool)
      requires Valid() && ledger.hold.Some? && ledger.hold.value.dir == d
      requires ledger.hold.value.since < |history| && LockIn(history[ledger.hold.value.since], d) == Some(Us)
      modifies `clock, `store, `history, ledger`hold, ledger`periods
      ensures Valid() && Advanced() && old(history) < history && ledger.hold == None
      ensures ledger.periods ==
        old(ledger.periods) + [Period(d, old(ledger.hold).value.since, Now(), if ok then Removed else RemovalFailed)]
      ensures ok ==> LockIn(store, d) == None
      ensures Spared(old(clock)) && LockIn(old(store), d).Some? ==> ok && store == WithoutLock(old(store), d)
      ensures OnlyGit() ==> HeldSince(history[..Now()], old(ledger.hold).value)
    {
      hide Sane;
      var fails := Begin();
      ok := !fails && LockIn(store, d).Some?;
      ghost var before := history;
      EndHold(d, if ok then Removed else RemovalFailed);
      assert history[..Now()] == before;
    }

    /** The lock that is held is given up while its file stays. */
    method GiveUp(d: DirId)
      requires Valid() && ledger.hold.Some? && ledger.hold.value.dir == d
      requires ledger.hold.value.since < |history| && LockIn(history[ledger.hold.value.since], d) == Some(Us)
      modifies `store, `history, ledger`hold, ledger`periods
      ensures Valid() && Advanced() && old(history) < history && ledger.hold == None && store == old(store)
      ensures ledger.periods == old(ledger.periods) + [Period(d, old(ledger.hold).value.since, Now(), Abandoned)]
      ensures OnlyGit() ==> HeldSince(history[..Now()], old(ledger.hold).value) && LockIn(store, d) == Some(Us)
    {
      hide Sane, HeldSince, OnlyGit;
      ghost var before := history;
      if OnlyGit() {
        HeldThroughout(history, ledger.hold.value, ledger.periods, ledger.log);
      }
      EndHold(d, Abandoned);
      assert history[..Now()] == before;
    }

    method EndHold(d: DirId, fate: Fate)
      requires Valid() && ledger.hold.Some? && ledger.hold.value.dir == d && (fate.Removed? ==> d in store.dirs)
      requires ledger.hold.value.since < |history| && LockIn(history[ledger.hold.value.since], d) == Some(Us)
      modifies `store, `history, ledger`hold, ledger`periods
      ensures Valid() && history == old(history) + [store] && ledger.hold == None
      ensures ledger.periods == old(ledger.periods) + [Period(d, old(ledger.hold).value.since, Now(), fate)]
      ensures store == if fate.Removed? then WithoutLock(old(store), d) else old(store)
      ensures OnlyGit() ==> HeldSince(old(history), old(ledger.hold).value)
    {
      hide Sane, HeldSince, OnlyGit;
      ghost var period := Period(d, ledger.hold.value.since, |history|, fate);
      if OnlyGit() {
        HeldThroughout(history, ledger.hold.value, ledger.periods, ledger.log);
      }
      SaneUnlock(history, ledger.hold.value, ledger.periods, ledger.log, store, period);
      if fate.Removed? {
        store := WithoutLock(store, d);
      }
      history, ledger.hold, ledger.periods := history + [store], None, ledger.periods + [period];
    }

    lemma SaneUnlock(h: seq<Store>, p: Hold, periods: seq<Period>, log: seq<Effect>, s: Store, period: Period)
      requires Sane(h, Some(p), periods, log) && h[|h| - 1] == s && p.since < |h|
      requires period.dir == p.dir && period.since == p.since && period.until == |h| && LockIn(h[p.since], p.dir) == Some(Us)
      requires period.fate.Removed? ==> p.dir in s.dirs
      ensures Sane(h + [if period.fate.Removed? then WithoutLock(s, p.dir) else s], None, periods + [period], log)
    {
      var t := if period.fate.Removed? then WithoutLock(s, p.dir) else s;
      if period.fate.Removed? {
        LockKeepsHead(s, p.dir);
      }
      if OnlyGit() {
        HoldEnds(h, p, s, t, periods, period);
      }
      RecordedEnd(h, log, periods, s, t, period);
    }

    lemma HoldEnds(h: seq<Store>, p: Hold, s: Store, t: Store, periods: seq<Period>, period: Period)
      requires h != [] && h[|h| - 1] == s && Orderly(h, Some(p)) && LocksKnown(s, Some(p), periods)
      requires period.fate.Removed? ==> p.dir in s.dirs
      requires period.dir == p.dir && t == if period.fate.Removed? then WithoutLock(s, p.dir) else s
      ensures Orderly(h + [t], None) && LocksKnown(t, None, periods + [period])
    {
      assert Ordered(h, |h| - 1, |h| - 1);
      OrderlyAppend(h, t);
      LocksAfter(s, t, p, periods, period);
    }

    lemma RecordedEnd(h: seq<Store>, log: seq<Effect>, periods: seq<Period>, s: Store, t: Store, period: Period)
      requires h != [] && h[|h| - 1] == s && Recorded(h, log, periods) && Head(t, ref) == Head(s, ref)
      requires PeriodHolds(h + [t], period)
      ensures Recorded(h + [t], log, periods + [period])
    {
      RecordedStep(h, log, periods, s, t);
      RecordedPeriod(h + [t], log, periods, period);
    }

    lemma LocksAfter(s: Store, t: Store, p: Hold, periods: seq<Period>, period: Period)
      requires LocksKnown(s, Some(p), periods) && period.dir == p.dir && NoNewLock(s, t)
      requires period.fate.Removed? ==> LockIn(t, p.dir) == None
      ensures LocksKnown(t, None, periods + [period])
    {
      forall d {:trigger LockIn(t, d)} | LockIn(t, d) == Some(Us)
        ensures Stuck(periods + [period], d)
      {
        assert LockIn(s, d) == Some(Us);
        if d == p.dir {
          assert (periods + [period])[|periods|] == period;
        } else {
          var i :| 0 <= i < |periods| && periods[i].dir == d && !periods[i].fate.Removed?;
          assert (periods + [period])[i] == periods[i];
        }
      }
    }

    /** When every lock given up was removed and the others respect the lock, no lock of the reader stands. */
    lemma NoLockLeft()
      requires Valid() && OnlyGit() && ledger.hold == None && forall i | 0 <= i < |ledger.periods| :: ledger.periods[i].fate.Removed?
      ensures forall d {:trigger LockIn(store, d)} :: LockIn(store, d) != Some(Us)
    {
    }

    /** `os.open` of the loose file by name in the pinned directory. */
    method OpenLoose(d: DirId) returns (r: Opening)
      requires Valid()
      modifies `clock, `store, `history, `fds, `open
      ensures Valid() && Advanced() && clock == old(clock) + 1
      ensures r.Opened? ==> r.fd !in old(open) && open == old(open) + {r.fd}
      ensures !r.Opened? ==> open == old(open)
      ensures r.Opened? ==> r.fd.handle.OnFile? && LooseIn(store, d) == Some(r.fd.handle.ino)
      ensures r.Missing? ==> LooseIn(store, d) == None
      ensures Spared(old(clock)) ==> store == old(store) && (if LooseIn(store, d).Some? then r.Opened? else r.Missing?)
    {
      hide Sane;
      var fails := Begin();
      if fails {
        return Fault;
      }
      if LooseIn(store, d) == None {
        return Missing;
      }
      var fd := NewFd(OnFile(LooseIn(store, d).value));
      r := Opened(fd);
    }

    method OpenPacked() returns (r: Opening)
      requires Valid()
      modifies `clock, `store, `history, `fds, `open
      ensures Valid() && Advanced()
      ensures r.Opened? ==> r.fd !in old(open) && open == old(open) + {r.fd}
      ensures !r.Opened? ==> open == old(open)
      ensures r.Opened? ==> r.fd.handle.OnFile? && store.packed == Some(r.fd.handle.ino)
      ensures r.Missing? ==> store.packed == None
      ensures Spared(old(clock)) ==> store == old(store) && (if store.packed.Some? then r.Opened? else r.Missing?)
    {
      hide Sane;
      var fails := Begin();
      if fails {
        return Fault;
      }
      if store.packed == None {
        return Missing;
      }
      var fd := NewFd(OnFile(store.packed.value));
      r := Opened(fd);
    }

    /** `os.fstat` of an open file: its identity and whether it is a regular file. */
    method Stat(fd: Fd) returns (r: Stating)
      requires Valid() && fd in open && fd.handle.OnFile?
      modifies `clock, `store, `history
      ensures Valid() && Advanced()
      ensures r.Stated? ==> r.ino == fd.handle.ino && (r.regular <==> FileAt(store, r.ino).Regular?)
      ensures Spared(old(clock)) ==> store == old(store) && r.Stated?
    {
      hide Sane;
      var fails := Begin();
      r := if fails then NotStated else Stated(fd.handle.ino, FileAt(store, fd.handle.ino).Regular?);
    }

    /** Reads an open file from its start. */
    method Read(fd: Fd) returns (r: Option<string>)
      requires Valid() && fd in open && fd.handle.OnFile?
      modifies `clock, `store, `history
      ensures Valid() && Advanced()
      ensures r.Some? ==> FileAt(store, fd.handle.ino) == Regular(r.value)
      ensures Spared(old(clock)) ==> store == old(store) && (FileAt(store, fd.handle.ino).Regular? ==> r.Some?)
    {
      hide Sane;
      var fails := Begin();
      var file := FileAt(store, fd.handle.ino);
      r := if fails || !file.Regular? then None else Some(file.bytes);
    }

    /** A check of something other than branch storage: it may fail, and finds what `verdicts` says. */
    method Query() returns (r: Option<bool>)
      requires Valid()
      modifies `clock, `store, `history
      ensures Valid() && Advanced() && (Spared(old(clock)) ==> store == old(store) && r == Some(true))
    {
      hide Sane;
      var fails := Begin();
      r := if fails then None else Some(verdicts(clock));
    }

    /** `os.dup` of an open file. */
    method Duplicate(fd: Fd) returns (r: Opening)
      requires Valid() && fd in open && fd.handle.OnFile?
      modifies `clock, `store, `history, `fds, `open
      ensures Valid() && Advanced()
      ensures r.Opened? ==> r.fd !in old(open) && open == old(open) + {r.fd} && r.fd.handle == fd.handle
      ensures !r.Opened? ==> open == old(open)
      ensures Spared(old(clock)) ==> store == old(store) && r.Opened?
    {
      hide Sane;
      var fails := Begin();
      if fails {
        return Fault;
      }
      var copy := NewFd(fd.handle);
      r := Opened(copy);
    }

    /** `git ls-remote` on the endpoint tells the head of the branch. */
    ghost predicate Candid()
    {
      forall n: nat, head: string {:trigger gitReply(n, Some(head))} | IsSha(head) ::
        gitReply(n, Some(head)).Some? && ParseSha(gitReply(n, Some(head)).value) == Some(head)
    }

    /** Call number `at`, in the state at index `seenAt`, answered `git ls-remote` with this head. */
    ghost predicate Replied(h: seq<Store>, at: nat, seenAt: nat, head: string)
    {
      seenAt < |h| && gitReply(at, Head(h[seenAt], ref)).Some? &&
      ParseSha(gitReply(at, Head(h[seenAt], ref)).value) == Some(head)
    }

    lemma RepliedLater(h: seq<Store>, later: seq<Store>, at: nat, seenAt: nat, head: string)
      requires h <= later && Replied(h, at, seenAt, head)
      ensures seenAt < |h| && Replied(later, at, seenAt, head)
    {
    }

    /** `git ls-remote` on the endpoint: its answer may depend on the head, but is not trusted to be anything in particular. */
    method LsRemote() returns (answer: Option<string>)
      requires Valid()
      modifies `clock, `store, `history
      ensures Valid() && Advanced() && clock == old(clock) + 1
      ensures answer.Some? ==> answer == gitReply(clock, Head(history[Now()], ref))
      ensures Spared(old(clock)) ==> store == old(store) && answer == gitReply(clock, Head(store, ref))
    {
      hide Sane;
      var fails := Begin();
      assert history[Now()] == store;
      answer := if fails then None else gitReply(clock, Head(store, ref));
    }

    /** `os.close`: the descriptor is gone even when the call fails, as on Linux. */
    method Close(fd: Fd) returns (ok: bool)
      requires Valid() && fd in open
      modifies `clock, `store, `history, `open, `failed
      ensures Valid() && Advanced() && clock == old(clock) + 1 && open == old(open) - {fd}
      ensures ok <==> !faults(clock)
      ensures failed == old(failed) + if ok then 0 else 1
      ensures Spared(old(clock)) ==> store == old(store) && ok
    {
      hide Sane;
      var fails := Begin();
      ok := !fails;
      open, failed := open - {fd}, failed + if ok then 0 else 1;
    }

    /** Closes descriptors from the last to the first; the first failure leaves the others open. */
    method CloseAll(fds: seq<Fd>) returns (ok: bool)
      requires Valid()
      requires (forall i | 0 <= i < |fds| :: fds[i] in open) && (forall i, j | 0 <= i < j < |fds| :: fds[i] != fds[j])
      modifies `clock, `store, `history, `open, `failed
      ensures Valid() && Advanced() && (ok <==> failed == old(failed))
      ensures old(open) - (set fd | fd in fds) <= open <= old(open)
      ensures ok ==> open == old(open) - (set fd | fd in fds)
      ensures Calm() ==> store == old(store) && ok
    {
      hide Sane;
      var n := |fds|;
      ok := true;
      while ok && n > 0
        invariant Valid() && Advanced() && 0 <= n <= |fds| && (ok <==> failed == old(failed))
        invariant open == old(open) - (set fd | fd in fds[n..])
        invariant Calm() ==> store == old(store) && ok
        decreases ok, n
      {
        n := n - 1;
        assert fds[n..] == [fds[n]] + fds[n + 1..];
        assert fds[n] in open;
        ok := Close(fds[n]);
      }
      assert forall fd | fd in fds[n..] :: fd in fds;
      assert n == 0 ==> fds[n..] == fds;
    }

    /** Classification is a turn like every other: the others act before it, and its instant is on record. */
    method Judge(head: string, expected: string, candidate: string) returns (state: Classification)
      requires Valid()
      modifies `clock, `store, `history, ledger`judged
      ensures Valid() && Advanced() && state == Classify(head, expected, candidate)
      ensures ledger.judged == old(ledger.judged) + [Judged(Now(), head, state)]
      ensures Spared(old(clock)) ==> store == old(store)
    {
      hide Sane;
      Interfere();
      state := Classify(head, expected, candidate);
      ledger.judged := ledger.judged + [Judged(Now(), head, state)];
    }

    /** `git ls-remote` on a remote server: an atomic read of the branch. */
    method ReadRemote() returns (head: Option<string>, ghost at: nat)
      requires Valid()
      modifies `clock, `store, `history
      ensures Valid() && Advanced() && |old(history)| <= at + 1 && at < |history|
      ensures head.Some? ==> head == Head(history[at], ref)
      ensures Spared(old(clock)) ==> store == old(store) && head == Head(store, ref)
    {
      hide Sane;
      var fails := Begin();
      at := Now();
      assert history[at] == store;
      head := None;
      if !fails {
        head := Head(store, ref);
      }
    }

    /** `git bundle create` beside the final place; a failing one may leave a file there. */
    method CreateBundle() returns (r: Option<bool>)
      requires Valid() && ledger.temporary == None
      modifies `clock, `store, `history, ledger`temporary, ledger`log
      ensures Valid() && Advanced()
      ensures r == Some(true) ==> ledger.temporary.Some? && ledger.log == old(ledger.log) + [Created(ledger.temporary.value)]
      ensures r != Some(true) ==> ledger.log == old(ledger.log)
      ensures Spared(old(clock)) ==> store == old(store) && r == Some(true)
    {
      hide Sane;
      r := Query();
      if r == Some(true) {
        ledger.temporary := Some(clock);
        Note(Created(clock));
      } else if debris(clock) {
        ledger.temporary := Some(clock);
      }
    }

    /** `git bundle verify`. */
    method VerifyBundle() returns (r: Option<bool>)
      requires Valid() && ledger.temporary.Some?
      modifies `clock, `store, `history, ledger`log
      ensures Valid() && Advanced()
      ensures ledger.log == if r == Some(true) then old(ledger.log) + [Verified(ledger.temporary.value)] else old(ledger.log)
      ensures Spared(old(clock)) ==> store == old(store) && r == Some(true)
    {
      hide Sane;
      r := Query();
      if r == Some(true) {
        Note(Verified(ledger.temporary.value));
      }
    }

    /** `git bundle list-heads`: the head that the bundle advertises for the branch. */
    method ListHeads() returns (r: Option<bool>, head: Option<string>)
      requires Valid() && ledger.temporary.Some?
      modifies `clock, `store, `history, ledger`log
      ensures Valid() && Advanced()
      ensures ledger.log == if r == Some(true) then old(ledger.log) + [Listed(ledger.temporary.value, head)] else old(ledger.log)
      ensures head == advertised(clock) && (Spared(old(clock)) ==> store == old(store) && r == Some(true))
    {
      hide Sane;
      r := Query();
      head := advertised(clock);
      if r == Some(true) {
        Note(Listed(ledger.temporary.value, head));
      }
    }

    /** Moves the temporary bundle into its final place. */
    method PlaceBundle() returns (ok: bool)
      requires Valid() && ledger.temporary.Some?
      modifies `clock, `store, `history, ledger`temporary, ledger`bundle, ledger`log
      ensures Valid() && Advanced()
      ensures ok ==> ledger.bundle == old(ledger.temporary) && ledger.temporary == None && ledger.log == old(ledger.log) + [Placed(ledger.bundle.value)]
      ensures !ok ==> ledger.bundle == old(ledger.bundle) && ledger.temporary == old(ledger.temporary) && ledger.log == old(ledger.log)
      ensures Spared(old(clock)) ==> store == old(store) && ok
    {
      hide Sane;
      var fails := Begin();
      ok := !fails;
      if ok {
        ledger.temporary, ledger.bundle := None, ledger.temporary;
        Note(Placed(ledger.bundle.value));
      }
    }

    /** Removes the temporary bundle. */
    method DropTemporary() returns (ok: bool)
      requires Valid()
      modifies `clock, `store, `history, ledger`temporary
      ensures Valid() && Advanced() && ledger.temporary == if ok then None else old(ledger.temporary)
    {
      hide Sane;
      var fails := Begin();
      ok := !fails;
      if ok {
        ledger.temporary := None;
      }
    }

    ghost method Note(e: Effect)
      requires Valid() && PushHolds(history, e)
      modifies ledger`log
      ensures Valid() && ledger.log == old(ledger.log) + [e]
    {
      RecordedEffect(history, ledger.log, ledger.periods, e);
      ledger.log := ledger.log + [e];
    }

    /** The push process asks for the branch lock, creating the directory if need be. */
    method TryLock(pusher: nat)
      requires Valid()
      modifies `clock, `store, `history
      ensures Valid() && Advanced() && clock == old(clock) + 2
      ensures Calm() && old(store).branchDir.Some? ==> store == Next(old(store), Git(TakeLock(pusher)), ref)
    {
      hide Sane;
      Interfere();
      if store.branchDir == None {
        Prepare(MakeDirectory(newDirectory(clock)));
      }
      Prepare(TakeLock(pusher));
      assert Spared(old(clock)) ==> schedule(old(clock)) == [];
      assert Spared(clock) ==> schedule(clock) == [];
      Interfere();
    }

    /** What an undisturbed push does to an unlocked branch: it commits, or leaves everything as it was. */
    ghost predicate PushedCalmly(s: Store, t: Store, d: DirId, expected: string, candidate: string, ino: Option<Ino>, moved: bool)
    {
      Lockable(t, d) && Head(t, ref) == (if moved then Some(candidate) else Head(s, ref)) &&
      (ino.Some? && ino.value !in s.files && Head(s, ref) == Some(expected) ==> moved)
    }

    /** Whether the push process, which wants to write file `ino`, commits at `s`: it holds the lock and the lease is met. */
    predicate Commits(s: Store, pusher: nat, expected: string, candidate: string, ino: Option<Ino>)
    {
      ino.Some? && Enabled(s, CommitLoose(pusher, candidate, ino.value), ref) && Head(s, ref) == Some(expected)
    }

    /** The step with which the push process gives its lock back. */
    function LastStep(s: Store, pusher: nat, expected: string, candidate: string, ino: Option<Ino>): GitStep
    {
      if Commits(s, pusher, expected, candidate, ino) then CommitLoose(pusher, candidate, ino.value) else DropLock(pusher)
    }

    lemma CalmPush(s: Store, d: DirId, pusher: nat, expected: string, candidate: string, ino: Option<Ino>)
      requires Lockable(s, d) && IsSha(candidate)
      ensures var locked := Next(s, Git(TakeLock(pusher)), ref);
        PushedCalmly(s, Next(locked, Git(LastStep(locked, pusher, expected, candidate, ino)), ref), d, expected, candidate, ino,
                     Commits(locked, pusher, expected, candidate, ino))
    {
      var locked := Next(s, Git(TakeLock(pusher)), ref);
      PreparationKeepsHead(s, TakeLock(pusher), ref);
      if Commits(locked, pusher, expected, candidate, ino) {
        CommitMovesHead(locked, pusher, candidate, ino.value, ref);
      } else {
        PreparationKeepsHead(locked, DropLock(pusher), ref);
      }
    }

    lemma SaneMove(h: seq<Store>, p: Option<Hold>, periods: seq<Period>, log: seq<Effect>, s: Store, pusher: nat,
                   ino: Ino, e: Effect)
      requires Sane(h, p, periods, log) && h[|h| - 1] == s && e.MovesAt(|h|) && e.endedAt == |h|
      requires Enabled(s, CommitLoose(pusher, e.to, ino), ref) && Head(s, ref) == Some(e.from)
      ensures Sane(h + [Next(s, Git(CommitLoose(pusher, e.to, ino)), ref)], p, periods, log + [e])
    {
      var g := CommitLoose(pusher, e.to, ino);
      CommitMovesHead(s, pusher, e.to, ino, ref);
      if OnlyGit() {
        OrderlyGit(h, p, g);
        NoForeignLock(s, g, ref);
      }
      RecordedMove(h, log, periods, Next(s, Git(g), ref), e);
    }

    /** The push process commits under its lock, which it holds, while the branch is at `expected`. */
    method Commit(pusher: nat, expected: string, candidate: string, ino: Ino)
      requires Valid() && Enabled(store, CommitLoose(pusher, candidate, ino), ref) && Head(store, ref) == Some(expected)
      modifies `store, `history, ledger`log
      ensures Valid() && |history| == |old(history)| + 1 && old(history) <= history
      ensures store == Next(old(store), Git(CommitLoose(pusher, candidate, ino)), ref)
      ensures ledger.log == old(ledger.log) + [Pushed(expected, candidate, Now(), Some(Now()))]
    {
      ghost var e := Pushed(expected, candidate, |history|, Some(|history|));
      SaneMove(history, ledger.hold, ledger.periods, ledger.log, store, pusher, ino, e);
      store := Next(store, Git(CommitLoose(pusher, candidate, ino)), ref);
      history, ledger.log := history + [store], ledger.log + [e];
    }

    /** The push process commits if it can, and gives its lock back. */
    method Finish(pusher: nat, expected: string, candidate: string, ino: Option<Ino>)
      requires Valid()
      modifies `store, `history, ledger`log
      ensures Valid() && Advanced() && |old(history)| < |history|
      ensures store == Next(old(store), Git(LastStep(old(store), pusher, expected, candidate, ino)), ref)
      ensures ledger.log == old(ledger.log) +
        [Pushed(expected, candidate, Now(), if Commits(old(store), pusher, expected, candidate, ino) then Some(Now()) else None)]
    {
      hide Sane;
      if Commits(store, pusher, expected, candidate, ino) {
        Commit(pusher, expected, candidate, ino.value);
      } else {
        Prepare(DropLock(pusher));
        Note(Pushed(expected, candidate, Now(), None));
      }
    }

    /**
     The push process takes the branch lock like any Git writer. Whether it commits, and the exit code it
     reports, are up to `commits` and `exits`; one that does not commit leaves the branch alone.
     */
    method Push(expected: string, candidate: string) returns (ok: bool)
      requires Valid() && IsSha(candidate)
      modifies `clock, `store, `history, ledger`log
      ensures Valid() && Advanced()
      ensures |ledger.log| == |old(ledger.log)| + 1 && old(ledger.log) <= ledger.log
      ensures var e := ledger.log[|old(ledger.log)|];
        e.PushOf(expected, candidate) && e.endedAt == Now() && (e.movedAt.Some? ==> |old(history)| <= e.movedAt.value)
      ensures Calm() && old(store).branchDir.Some? && Lockable(old(store), old(store).branchDir.value) ==>
        PushedCalmly(old(store), store, old(store).branchDir.value, expected, candidate, commits(old(clock) + 2),
                     ledger.log[|old(ledger.log)|].movedAt.Some?)
      ensures ok == exits(clock)
    {
      hide Sane, Next, PushedCalmly, Head, Commits, LastStep, Enabled;
      var pusher := clock;
      TryLock(pusher);
      var ino := commits(clock);
      if old(store).branchDir.Some? && Lockable(old(store), old(store).branchDir.value) {
        CalmPush(old(store), old(store).branchDir.value, pusher, expected, candidate, ino);
      }
      Finish(pusher, expected, candidate, ino);
      ok := exits(clock);
    }

    /** A push on record was over at an index of the history. */
    lemma PushesOver()
      requires Valid()
      ensures forall i | 0 <= i < |ledger.log| && ledger.log[i].Pushed? :: ledger.log[i].endedAt < |history|
    {
      forall i | 0 <= i < |ledger.log| && ledger.log[i].Pushed?
        ensures ledger.log[i].endedAt < |history|
      {
        assert PushHolds(history, ledger.log[i]);
      }
    }

    /** From index `from` on, the head of the branch changes only by steps of others and by this move. */
    ghost predicate OnlyMoves(h: seq<Store>, from: nat, move: Option<Effect>)
    {
      forall k: nat | 0 < from <= k < |h| && Head(h[k], ref) != Head(h[k - 1], ref) && !Scheduled(h[k - 1], h[k]) ::
        move.Some? && move.value.MovesAt(k) && MovedAt(h, k, move.value.from, move.value.to)
    }

    /** When the record since index `from` holds at most one push, no other own step moves the branch. */
    lemma MovesAccounted(h: seq<Store>, log: seq<Effect>, periods: seq<Period>, from: nat, done: nat, move: Option<Effect>)
      requires Recorded(h, log, periods) && done <= |log| && 0 < from
      requires forall i | 0 <= i < done :: log[i].Pushed? ==> log[i].endedAt < from
      requires forall i | done <= i < |log| :: log[i].Pushed? ==> move == Some(log[i])
      ensures OnlyMoves(h, from, move)
    {
      forall k: nat | 0 < from <= k < |h| && Head(h[k], ref) != Head(h[k - 1], ref) && !Scheduled(h[k - 1], h[k])
        ensures move.Some? && move.value.MovesAt(k) && MovedAt(h, k, move.value.from, move.value.to)
      {
        assert Explained(h, log, k);
        var i :| 0 <= i < |log| && log[i].MovesAt(k);
        assert PushHolds(h, log[i]);
      }
    }
  }
}
