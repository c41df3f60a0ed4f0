/** The stable reader of a local branch: it takes the branch lock, pins what it reads, classifies and verifies again. */
module StableReader {
  import opened Wrappers
  import opened Strings
  import opened RefStorage
  import opened GitStore
  import opened SystemCalls

  datatype Error = PublicationError | RawOsError

  /** A regular file that is no symbolic ref. */
  ghost predicate PlainFile(file: File)
  {
    file.Regular? && !StartsWith(file.bytes, "ref:")
  }

  ghost predicate PlainLoose(s: Store, d: DirId)
  {
    LooseIn(s, d).None? || PlainFile(FileAt(s, LooseIn(s, d).value))
  }

  lemma HeadMeansPlain(s: Store, d: DirId, ref: string)
    ensures s.branchDir == Some(d) && Head(s, ref).Some? ==> PlainLoose(s, d)
  {
  }

  /** At `s` there was no loose file, or one that at `t` held no symbolic ref. */
  ghost predicate PlainBetween(s: Store, t: Store, d: DirId)
  {
    LooseIn(s, d).None? || PlainFile(FileAt(t, LooseIn(s, d).value))
  }

  /** A pinned file: its descriptor, then its identity, then its contents, as far as they are known. */
  datatype Pin = Pin(fd: Fd, ino: Option<Ino>, bytes: Option<string>)
  {
    predicate Complete() {
      ino.Some? && bytes.Some?
    }
  }

  /**
   When the evidence for a head was seen in storage: at `boundAt` the name led to file `ino`, at `readAt` that
   file held `bytes`; for packed-refs, at `absentAt` there was no loose file in `dir`.
   */
  datatype Sighting =
    | OfLoose(dir: DirId, ino: Ino, bytes: string, boundAt: nat, readAt: nat)
    | OfPacked(dir: DirId, ino: Ino, bytes: string, absentAt: nat, boundAt: nat, readAt: nat)
  {
    ghost predicate Gives(ref: string, head: string) {
      (if OfLoose? then ParseLoose(bytes) else ParsePacked(bytes, ref)) == Some(head)
    }

    /** The very same file with the very same contents, however often it was seen. */
    ghost predicate Same(other: Sighting) {
      OfLoose? == other.OfLoose? && dir == other.dir && ino == other.ino && bytes == other.bytes
    }

    ghost predicate Displaced(s: Store) {
      if OfLoose? then LooseIn(s, dir) != Some(ino) else s.packed != Some(ino)
    }

    ghost predicate Rewritten(s: Store) {
      FileAt(s, ino) != Regular(bytes)
    }

    ghost predicate Shadowed(s: Store) {
      OfPacked? && LooseIn(s, dir) != None
    }

    ghost predicate Within(h: seq<Store>, from: nat, to: nat) {
      from <= boundAt <= to < |h| && from <= readAt <= to && !Displaced(h[boundAt]) && !Rewritten(h[readAt]) &&
      (OfPacked? ==> from <= absentAt <= to && !Shadowed(h[absentAt]))
    }

    /** Throughout the period the name led elsewhere, or the contents were others, or a loose file shadowed packed-refs. */
    ghost predicate Undermined(h: seq<Store>, from: nat, to: nat) {
      from <= to < |h| &&
      ((forall k | from <= k <= to :: Displaced(h[k])) ||
       (forall k | from <= k <= to :: Rewritten(h[k])) ||
       (forall k | from <= k <= to :: Shadowed(h[k])))
    }
  }

  /** What undermines a sighting for the whole period excludes seeing the same again within it. */
  lemma UnderminedMeansUnseen(h: seq<Store>, first: Sighting, again: Sighting, from: nat, to: nat)
    requires again.Same(first) && again.Within(h, from, to)
    ensures !first.Undermined(h, from, to)
  {
    var name, contents := h[again.boundAt], h[again.readAt];
    var shadow := if again.OfPacked? then h[again.absentAt] else h[to];
    assert !first.Displaced(name) && !first.Rewritten(contents) && !first.Shadowed(shadow);
  }

  lemma EarlierWithin(h: seq<Store>, s: Sighting, from: nat, start: nat, to: nat)
    requires from <= start && s.Within(h, start, to)
    ensures s.Within(h, from, to)
  {
  }

  lemma WithinLater(h: seq<Store>, later: seq<Store>, s: Sighting, from: nat, to: nat, until: nat)
    requires h <= later && s.Within(h, from, to) && to <= until < |later|
    ensures s.Within(later, from, until)
  {
  }

  /**
   How the pinned evidence was seen again: once, or on both sides of a classification that was made at index `at`.
   */
  datatype Confirmation =
    | SeenAgain(seen: Sighting)
    | Judging(before: Sighting, at: nat, after: Sighting)
  {
    ghost predicate Confirms(h: seq<Store>, first: Sighting, from: nat, to: nat)
    {
      match this
      case SeenAgain(seen) => seen.Same(first) && seen.Within(h, from, to)
      case Judging(before, at, after) =>
        from <= at <= to && before.Same(first) && before.Within(h, from, at) && after.Same(first) && after.Within(h, at, to)
    }

    /** Before classification, or from it on, what was pinned was replaced, rewritten or shadowed all the time. */
    ghost predicate Undermined(h: seq<Store>, first: Sighting, from: nat, to: nat)
    {
      match this
      case SeenAgain(_) => first.Undermined(h, from, to)
      case Judging(_, at, _) => first.Undermined(h, from, at) || first.Undermined(h, at, to)
    }

    /** What the world has on record of the classification of a reading. */
    ghost function Entries(reading: Reading): seq<Judged>
    {
      if Judging? && reading.state.Some? then [Judged(at, reading.head, reading.state.value)] else []
    }
  }

  lemma ConfirmedMeansSound(h: seq<Store>, check: Confirmation, first: Sighting, from: nat, to: nat)
    requires check.Confirms(h, first, from, to)
    ensures !check.Undermined(h, first, from, to)
  {
    match check
    case SeenAgain(seen) => UnderminedMeansUnseen(h, first, seen, from, to);
    case Judging(before, at, after) =>
      UnderminedMeansUnseen(h, first, before, from, at);
      UnderminedMeansUnseen(h, first, after, at, to);
  }

  lemma ConfirmsEarlier(h: seq<Store>, check: Confirmation, first: Sighting, from: nat, start: nat, to: nat)
    requires from <= start && check.Confirms(h, first, start, to)
    ensures check.Confirms(h, first, from, to)
  {
  }

  lemma ConfirmsLater(h: seq<Store>, later: seq<Store>, check: Confirmation, first: Sighting, from: nat, to: nat, until: nat)
    requires h <= later && check.Confirms(h, first, from, to) && to <= until < |later|
    ensures check.Confirms(later, first, from, until)
  {
    match check
    case SeenAgain(seen) => WithinLater(h, later, seen, from, to, until);
    case Judging(before, at, after) =>
      WithinLater(h, later, before, from, at, at);
      WithinLater(h, later, after, at, to, until);
  }

  /**
   What one reading sees under the lock, as indices into the history of stored states: `first` is the evidence as
   it was pinned; at `linkedAt` the path of the branch led to the directory of the lock; `check` is how the evidence
   was seen again after that. Call number `asked` answered for `git ls-remote` in the state at `seenAt`.
   */
  datatype Course = Course(first: Sighting, linkedAt: nat, check: Confirmation, asked: nat, seenAt: nat)
  {
    /**
     Against any other process: what was pinned before the hierarchy was compared was seen again before and after
     classification, the same file under the same name with the same contents, and it gives `head`.
     */
    ghost predicate Shows(h: seq<Store>, from: nat, to: nat, dir: DirId, ref: string, head: string)
    {
      from <= seenAt <= linkedAt <= to < |h| && h[linkedAt].branchDir == Some(dir) && first.dir == dir &&
      first.Gives(ref, head) && first.Within(h, from, linkedAt) && check.Confirms(h, first, linkedAt, to)
    }
  }

  lemma ShowsLater(h: seq<Store>, later: seq<Store>, c: Course, from: nat, to: nat, until: nat, dir: DirId, ref: string, head: string)
    requires h <= later && c.Shows(h, from, to, dir, ref, head) && to <= until < |later|
    ensures c.Shows(later, from, until, dir, ref, head)
  {
    WithinLater(h, later, c.first, from, c.linkedAt, c.linkedAt);
    ConfirmsLater(h, later, c.check, c.first, c.linkedAt, to, until);
  }

  /**
   The trail of one reading: the branch lock stood in `dir` from `lockedAt`; `releasedAt` is the state just after
   it was given up, and `fate` says what became of its file.
   */
  datatype Trail =
    | NotLocked
    | LockedBetween(dir: DirId, lockedAt: nat, course: Course, releasedAt: nat, fate: Fate)
  {
    /** The locks that the reading took, as the world has them on record. */
    ghost function Periods(): seq<Period> {
      if NotLocked? then [] else [Period(dir, lockedAt, releasedAt, fate)]
    }

    /** A lock file that is left behind is left with a raw error. */
    ghost predicate Released(r: Result<Reading, Error>)
    {
      (r.Success? ==> LockedBetween? && fate == Removed) && (LockedBetween? && fate != Removed ==> r == Failure(RawOsError))
    }

    /** Against any other process, the reading rests on what was seen while the lock stood. */
    ghost predicate Supports(h: seq<Store>, ref: string, head: string)
    {
      LockedBetween? && lockedAt < releasedAt < |h| && course.Shows(h, lockedAt, releasedAt - 1, dir, ref, head)
    }

    /** Before classification, or from it until the lock was given up, what was pinned did not stand at any time. */
    ghost predicate Undermined(h: seq<Store>)
    {
      LockedBetween? && 0 < releasedAt && course.check.Undermined(h, course.first, course.linkedAt, releasedAt - 1)
    }

    /** Against lock-respecting processes: the branch resolved to `head` at every instant of the locked period. */
    ghost predicate Stable(h: seq<Store>, ref: string, head: string)
    {
      LockedBetween? && releasedAt < |h| && forall k: nat | lockedAt <= k < releasedAt :: Head(h[k], ref) == Some(head)
    }

    /** A lock that was given up without an attempt to remove it stands in its directory. */
    ghost predicate LeftStanding(h: seq<Store>)
    {
      LockedBetween? && fate == Abandoned ==> releasedAt < |h| && LockIn(h[releasedAt], dir) == Some(Us)
    }
  }

  /** What is undermined for the whole time before or after classification is not read. */
  lemma InterferenceDetected(h: seq<Store>, trail: Trail, ref: string, head: string)
    requires trail.Supports(h, ref, head)
    ensures !trail.Undermined(h)
  {
    ConfirmedMeansSound(h, trail.course.check, trail.course.first, trail.course.linkedAt, trail.releasedAt - 1);
  }

  lemma TrailLater(h: seq<Store>, later: seq<Store>, trail: Trail, r: Result<Reading, Error>, ref: string)
    requires h <= later
    ensures r.Success? && trail.Supports(h, ref, r.value.head) ==> trail.Supports(later, ref, r.value.head)
    ensures r.Success? && trail.Stable(h, ref, r.value.head) ==> trail.Stable(later, ref, r.value.head)
    ensures trail.LeftStanding(h) ==> trail.LeftStanding(later)
  {
    if r.Success? && trail.Supports(h, ref, r.value.head) {
      ShowsLater(h, later, trail.course, trail.lockedAt, trail.releasedAt - 1, trail.releasedAt - 1, trail.dir, ref, r.value.head);
    }
  }

  datatype Reading = Reading(head: string, state: Option<Classification>)
  {
    /** The state is the classification of the head against the expected head and the candidate, when these are given. */
    ghost predicate Classified(against: Option<(string, string)>)
    {
      state == if against.Some? then Some(Classify(head, against.value.0, against.value.1)) else None
    }
  }

  /** The open directories of the branch path, what identifies them, and the one that holds the branch. */
  datatype Lease = Lease(parents: seq<Fd>, outer: seq<DirId>, dir: DirId)
  {
    ghost function Fds(): set<Fd> {
      set fd | fd in parents
    }

    /** The directories are open, each once. */
    ghost predicate OpenIn(open: set<Fd>) {
      (forall i | 0 <= i < |parents| :: parents[i] in open) && (forall i, j | 0 <= i < j < |parents| :: parents[i] != parents[j])
    }
  }

  /** The descriptors are what is open beyond `before`. */
  ghost predicate Leased(parents: seq<Fd>, before: set<Fd>, after: set<Fd>)
  {
    (forall i | 0 <= i < |parents| :: parents[i] !in before) &&
    (forall i, j | 0 <= i < j < |parents| :: parents[i] != parents[j]) &&
    after == before + (set fd | fd in parents)
  }

  class Reader {
    const world: World
    var loose: Option<Pin>
    var packed: Option<Pin>
    var looseAbsent: bool

    constructor (world: World)
      ensures this.world == world && loose == None && packed == None && !looseAbsent
    {
      this.world := world;
      loose, packed, looseAbsent := None, None, false;
    }

    function Pinned(): set<Fd>
      reads this
    {
      (if loose.Some? then {loose.value.fd} else {}) + (if packed.Some? then {packed.value.fd} else {})
    }

    ghost predicate Holds(p: Pin)
      reads world
    {
      p.fd in world.open && p.fd.handle.OnFile? && (p.ino.Some? ==> p.ino.value == p.fd.handle.ino)
    }

    ghost predicate PinsHeld()
      reads this, world
    {
      (loose.Some? ==> Holds(loose.value)) && (packed.Some? ==> Holds(packed.value)) &&
      (loose.Some? && packed.Some? ==> loose.value.fd != packed.value.fd)
    }

    ghost predicate Ready()
      reads this, world, world.ledger
    {
      world.Valid() == true && PinsHeld() == true
    }

    /** The pinned file has the pinned contents. */
    ghost predicate Stands(p: Pin)
      reads world
    {
      p.Complete() ==> FileAt(world.store, p.ino.value) == Regular(p.bytes.value)
    }

    /** Storage is as the pins say: contents, names, and the absence of a loose file. */
    ghost predicate AllStand(d: DirId)
      reads this, world, world.ledger
    {
      (loose.Some? && loose.value.Complete() ==> Stands(loose.value) && LooseIn(world.store, d) == loose.value.ino) &&
      (packed.Some? && packed.value.Complete() ==> Stands(packed.value) && world.store.packed == packed.value.ino) &&
      (looseAbsent ==> LooseIn(world.store, d) == None)
    }

    /** Nothing interferes, the branch resolves to a head through directory `d`, and `git ls-remote` gives that head. */
    ghost predicate Undisturbed(d: DirId)
      reads world
    {
      world.Calm() && world.store.branchDir == Some(d) && Head(world.store, world.ref).Some? &&
      world.Candid()
    }

    /** Moreover the branch lock can be taken. */
    ghost predicate Free()
      reads world
    {
      world.store.branchDir.Some? && Undisturbed(world.store.branchDir.value) &&
      world.Lockable(world.store, world.store.branchDir.value)
    }

    /** The pinned file still has its identity and its contents. */
    method Reread(pin: Pin) returns (r: Result<(), Error>, ghost readAt: nat)
      requires Ready() && Holds(pin) && pin.Complete()
      modifies world
      ensures Ready() && world.Advanced() && world.open == old(world.open)
      ensures r.Success? ==>
        |old(world.history)| <= readAt + 1 && readAt < |world.history| &&
        FileAt(world.history[readAt], pin.ino.value) == Regular(pin.bytes.value)
      ensures world.failed == old(world.failed)
      ensures world.Calm() ==> world.store == old(world.store) && (old(Stands(pin)) ==> r.Success?)
    {
      hide World.Sane, World.OnlyGit;
      readAt := 0;
      var stat := world.Stat(pin.fd);
      if !stat.Stated? {
        r := Failure(RawOsError);
        return;
      }
      var bytes := world.Read(pin.fd);
      readAt := world.Now();
      r := if stat.ino == pin.ino.value && bytes == pin.bytes then Success(()) else Failure(PublicationError);
    }

    /** Closes a descriptor opened to verify a name, and compares the file it led to. */
    method CloseIfSame(fd: Fd, ino: Ino) returns (r: Result<(), Error>)
      requires Ready() && fd !in Pinned() && fd in world.open && fd.handle.OnFile?
      modifies world
      ensures Ready() && world.Advanced() && world.open == old(world.open) - {fd}
      ensures r.Success? ==> fd.handle.ino == ino && world.failed == old(world.failed)
      ensures world.Calm() ==> world.store == old(world.store) && (fd.handle.ino == ino ==> r.Success?)
    {
      hide World.Sane, World.OnlyGit;
      var stat := world.Stat(fd);
      var closed := world.Close(fd);
      r := if !closed || !stat.Stated? then Failure(RawOsError)
           else if stat.ino == ino then Success(()) else Failure(PublicationError);
    }

    /** The loose name leads to this very file. */
    method VerifyLooseName(d: DirId, ino: Ino) returns (r: Result<(), Error>, ghost boundAt: nat)
      requires Ready()
      modifies world
      ensures Ready() && world.Advanced() && world.open == old(world.open)
      ensures r.Success? ==>
        |old(world.history)| <= boundAt + 1 && boundAt < |world.history| && LooseIn(world.history[boundAt], d) == Some(ino) &&
        world.failed == old(world.failed)
      ensures world.Calm() ==> world.store == old(world.store) && (LooseIn(world.store, d) == Some(ino) ==> r.Success?)
    {
      hide World.Sane, World.OnlyGit;
      boundAt := 0;
      var again := world.OpenLoose(d);
      if !again.Opened? {
        r := Failure(RawOsError);
        return;
      }
      ghost var seen := world.history;
      boundAt := world.Now();
      r := CloseIfSame(again.fd, ino);
      assert world.history[boundAt] == seen[boundAt];
    }

    /** The exact loose file still has its contents and its name. */
    method VerifyLoose(d: DirId) returns (r: Result<(), Error>, ghost readAt: nat, ghost boundAt: nat)
      requires Ready()
      modifies world
      ensures Ready() && world.Advanced() && world.open == old(world.open)
      ensures r.Success? ==> world.failed == old(world.failed)
      ensures r.Success? && loose.Some? && loose.value.Complete() ==>
        |old(world.history)| <= readAt + 1 && readAt <= boundAt < |world.history| &&
        FileAt(world.history[readAt], loose.value.ino.value) == Regular(loose.value.bytes.value) &&
        LooseIn(world.history[boundAt], d) == loose.value.ino
      ensures world.Calm() ==> world.store == old(world.store) && (old(AllStand(d)) ==> r.Success?)
    {
      hide World.Sane, World.OnlyGit;
      r, readAt, boundAt := Success(()), 0, 0;
      if loose.None? || !loose.value.Complete() {
        return;
      }
      r, readAt := Reread(loose.value);
      if r.Failure? {
        return;
      }
      ghost var seen := world.history;
      r, boundAt := VerifyLooseName(d, loose.value.ino.value);
      assert world.history[readAt] == seen[readAt];
    }

    /** The name of packed-refs leads to this very file. */
    method VerifyPackedName(ino: Ino) returns (r: Result<(), Error>, ghost boundAt: nat)
      requires Ready()
      modifies world
      ensures Ready() && world.Advanced() && world.open == old(world.open)
      ensures r.Success? ==>
        |old(world.history)| <= boundAt + 1 && boundAt < |world.history| && world.history[boundAt].packed == Some(ino) &&
        world.failed == old(world.failed)
      ensures world.Calm() ==> world.store == old(world.store) && (world.store.packed == Some(ino) ==> r.Success?)
    {
      hide World.Sane, World.OnlyGit;
      boundAt := 0;
      var again := world.OpenPacked();
      if !again.Opened? {
        r := Failure(RawOsError);
        return;
      }
      ghost var seen := world.history;
      boundAt := world.Now();
      r := CloseIfSame(again.fd, ino);
      assert world.history[boundAt] == seen[boundAt];
    }

    /** The exact packed-refs file still has its contents and its name. */
    method VerifyPacked() returns (r: Result<(), Error>, ghost readAt: nat, ghost boundAt: nat)
      requires Ready()
      modifies world
      ensures Ready() && world.Advanced() && world.open == old(world.open)
      ensures r.Success? ==> world.failed == old(world.failed)
      ensures r.Success? && packed.Some? && packed.value.Complete() ==>
        |old(world.history)| <= readAt + 1 && readAt <= boundAt < |world.history| &&
        FileAt(world.history[readAt], packed.value.ino.value) == Regular(packed.value.bytes.value) &&
        world.history[boundAt].packed == packed.value.ino
      ensures world.Calm() ==>
        world.store == old(world.store) &&
        (old(packed.Some? && packed.value.Complete() ==> Stands(packed.value) && world.store.packed == packed.value.ino) ==>
          r.Success?)
    {
      hide World.Sane, World.OnlyGit;
      r, readAt, boundAt := Success(()), 0, 0;
      if packed.None? || !packed.value.Complete() {
        return;
      }
      r, readAt := Reread(packed.value);
      if r.Failure? {
        return;
      }
      ghost var seen := world.history;
      r, boundAt := VerifyPackedName(packed.value.ino.value);
      assert world.history[readAt] == seen[readAt];
    }

    /** No loose file shadows packed-refs, when that is what the reading rests on. */
    method VerifyAbsence(d: DirId) returns (r: Result<(), Error>, ghost absentAt: nat)
      requires Ready()
      modifies world
      ensures Ready() && world.Advanced() && world.open == old(world.open)
      ensures r.Success? ==> world.failed == old(world.failed)
      ensures r.Success? && looseAbsent ==>
        |old(world.history)| <= absentAt + 1 && absentAt < |world.history| && LooseIn(world.history[absentAt], d) == None
      ensures world.Calm() ==>
        world.store == old(world.store) && (looseAbsent && LooseIn(world.store, d) != None ==> r.Failure?) &&
        (!looseAbsent || LooseIn(world.store, d) == None ==> r.Success?)
    {
      hide World.Sane, World.OnlyGit;
      absentAt := 0;
      if !looseAbsent {
        return Success(()), 0;
      }
      var found := world.OpenLoose(d);
      if found.Missing? {
        return Success(()), world.Now();
      }
      r := Failure(PublicationError);
      if found.Opened? {
        var closed := world.Close(found.fd);
        r := Failure(if closed then PublicationError else RawOsError);
      }
    }

    /** A symbolic branch is refused: the lock does not cover the ref it delegates to. */
    method RefuseSymbolic(d: DirId) returns (r: Result<(), Error>, ghost boundAt: nat, ghost readAt: nat)
      requires Ready()
      modifies world
      ensures Ready() && world.Advanced() && world.open == old(world.open)
      ensures r.Success? ==>
        |old(world.history)| <= boundAt + 1 && boundAt <= readAt < |world.history| &&
        PlainBetween(world.history[boundAt], world.history[readAt], d) && world.failed == old(world.failed)
      ensures world.Calm() ==> world.store == old(world.store) && (r.Success? <==> PlainLoose(world.store, d))
    {
      hide World.Sane, World.OnlyGit, PlainFile;
      var found := world.OpenLoose(d);
      boundAt, readAt := world.Now(), world.Now();
      assert world.history[boundAt] == world.store;
      if !found.Opened? {
        r := if found.Missing? then Success(()) else Failure(PublicationError);
        return;
      }
      ghost var bound := world.history;
      assert LooseIn(bound[boundAt], d) == Some(found.fd.handle.ino);
      r, readAt := CheckNotSymbolic(found.fd);
      ghost var read := world.history;
      var closed := world.Close(found.fd);
      assert world.history[boundAt] == bound[boundAt] && world.history[readAt] == read[readAt];
      if !closed {
        r := Failure(RawOsError);
      }
    }

    method CheckNotSymbolic(fd: Fd) returns (r: Result<(), Error>, ghost readAt: nat)
      requires Ready() && fd in world.open && fd.handle.OnFile?
      modifies world
      ensures Ready() && world.Advanced() && world.open == old(world.open) && world.failed == old(world.failed)
      ensures |old(world.history)| <= readAt + 1 && readAt < |world.history|
      ensures r.Success? ==> PlainFile(FileAt(world.history[readAt], fd.handle.ino))
      ensures world.Calm() ==> world.store == old(world.store) && (r.Success? <==> PlainFile(FileAt(world.store, fd.handle.ino)))
    {
      hide World.Sane, World.OnlyGit;
      readAt := world.Now();
      var stat := world.Stat(fd);
      r := Failure(if stat.Stated? then PublicationError else RawOsError);
      if stat.Stated? && stat.regular {
        r, readAt := ReadNotSymbolic(fd);
      }
    }

    method ReadNotSymbolic(fd: Fd) returns (r: Result<(), Error>, ghost readAt: nat)
      requires Ready() && fd in world.open && fd.handle.OnFile?
      modifies world
      ensures Ready() && world.Advanced() && world.open == old(world.open) && world.failed == old(world.failed)
      ensures |old(world.history)| <= readAt + 1 && readAt < |world.history|
      ensures r.Success? ==> PlainFile(FileAt(world.history[readAt], fd.handle.ino))
      ensures world.Calm() ==>
        world.store == old(world.store) && (r.Success? ==> PlainFile(FileAt(world.store, fd.handle.ino))) &&
        (PlainFile(FileAt(world.store, fd.handle.ino)) ==> r.Success?)
    {
      hide World.Sane, World.OnlyGit;
      var bytes := world.Read(fd);
      readAt := world.Now();
      r := if bytes.None? then Failure(RawOsError)
           else if StartsWith(bytes.value, "ref:") then Failure(PublicationError) else Success(());
    }

    /** The identity of a regular file; anything else is closed. */
    method StatOrClose(fd: Fd) returns (r: Result<Ino, Error>)
      requires Ready() && fd !in Pinned() && fd in world.open && fd.handle.OnFile?
      modifies world
      ensures Ready() && world.Advanced()
      ensures world.open == if r.Success? then old(world.open) else old(world.open) - {fd}
      ensures r.Success? ==> r.value == fd.handle.ino && world.failed == old(world.failed)
      ensures world.Calm() ==> world.store == old(world.store) && (r.Success? <==> FileAt(world.store, fd.handle.ino).Regular?)
    {
      hide World.Sane, World.OnlyGit;
      var stat := world.Stat(fd);
      if !stat.Stated? || !stat.regular {
        var closed := world.Close(fd);
        return Failure(if closed then PublicationError else RawOsError);
      }
      r := Success(stat.ino);
    }

    /** The pins are complete and are what the sighting shows: the loose file, or packed-refs without one. */
    ghost predicate Pins(s: Sighting)
      reads this
    {
      if looseAbsent then
        s.OfPacked? && loose == None && packed.Some? && packed.value.ino == Some(s.ino) && packed.value.bytes == Some(s.bytes)
      else
        s.OfLoose? && loose.Some? && loose.value.ino == Some(s.ino) && loose.value.bytes == Some(s.bytes)
    }

    /** Pins the loose file open on `fd` and reads the head it gives. */
    method PinLoose(fd: Fd, d: DirId) returns (r: Result<string, Error>, ghost s: Sighting)
      requires Ready() && loose == None && packed == None && !looseAbsent
      requires fd in world.open && fd.handle.OnFile?
      requires world.ledger.hold.Some? && world.ledger.hold.value.dir == d && world.ledger.hold.value.since < |world.history|
      requires LooseIn(world.store, d) == Some(fd.handle.ino)
      modifies this, world
      ensures Ready() && world.Advanced() && packed == None && !looseAbsent
      ensures world.open == old(world.open) - {fd} + Pinned() && Pinned() <= {fd}
      ensures r.Success? ==> Pins(s) && s.dir == d && s.Gives(world.ref, r.value) && world.failed == old(world.failed)
      ensures r.Success? ==> s.Within(world.history, |old(world.history)| - 1, world.Now())
      ensures r.Success? && world.OnlyGit() ==> Head(world.store, world.ref) == Some(r.value)
      ensures world.Calm() ==>
        world.store == old(world.store) && AllStand(d) &&
        (HeadInLoose(FileAt(world.store, fd.handle.ino)).Some? ==> r == Success(HeadInLoose(FileAt(world.store, fd.handle.ino)).value))
    {
      hide World.Sane, World.OnlyGit;
      ghost var openedAt := world.Now();
      s := OfLoose(d, 0, "", 0, 0);
      var ino := StatOrClose(fd);
      if ino.Failure? {
        r := Failure(ino.error);
        return;
      }
      ghost var seen := world.history;
      assert seen[openedAt] == old(world.store);
      r, s := ReadLoose(fd, ino.value, d, openedAt);
      if r.Success? && world.OnlyGit() {
        world.LooseHeadStands(openedAt, s.readAt, s.ino, s.bytes);
      }
    }

    /** Pins the loose file just opened, whose identity is known, and reads it. */
    method ReadLoose(fd: Fd, ino: Ino, d: DirId, ghost boundAt: nat) returns (r: Result<string, Error>, ghost s: Sighting)
      requires Ready() && loose == None && packed == None && !looseAbsent
      requires fd in world.open && fd.handle == OnFile(ino)
      requires boundAt < |world.history| && LooseIn(world.history[boundAt], d) == Some(ino)
      modifies this, world
      ensures Ready() && world.Advanced() && packed == None && !looseAbsent && world.open == old(world.open)
      ensures loose.Some? && loose.value.fd == fd && loose.value.ino == Some(ino) && world.failed == old(world.failed)
      ensures r.Success? ==> Pins(s) && s.dir == d && s.Gives(world.ref, r.value)
      ensures r.Success? ==> s.Within(world.history, boundAt, world.Now()) && s.boundAt == boundAt
      ensures world.Calm() ==> world.store == old(world.store) && Stands(loose.value)
      ensures world.Calm() && HeadInLoose(FileAt(world.store, ino)).Some? ==> r == Success(HeadInLoose(FileAt(world.store, ino)).value)
    {
      hide World.Sane, World.OnlyGit;
      var bytes := ReadPin(fd, ino);
      s := OfLoose(d, ino, if bytes.Some? then bytes.value else "", boundAt, world.Now());
      assert world.history[boundAt] == old(world.history)[boundAt];
      var head := if bytes.Some? then ParseLoose(bytes.value) else None;
      r := if head.Some? then Success(head.value) else Failure(PublicationError);
    }

    /** Pins the file and, if it can be read, its contents. */
    method ReadPin(fd: Fd, ino: Ino) returns (bytes: Option<string>)
      requires Ready() && loose == None && packed == None && !looseAbsent
      requires fd in world.open && fd.handle == OnFile(ino)
      modifies this, world
      ensures Ready() && world.Advanced() && packed == None && !looseAbsent && world.open == old(world.open)
      ensures loose == Some(Pin(fd, Some(ino), bytes)) && world.failed == old(world.failed)
      ensures bytes.Some? ==> FileAt(world.store, ino) == Regular(bytes.value)
      ensures world.Calm() ==> world.store == old(world.store) && (FileAt(world.store, ino).Regular? ==> bytes.Some?)
    {
      hide World.Sane, World.OnlyGit;
      loose := Some(Pin(fd, Some(ino), None));
      bytes := world.Read(fd);
      loose := Some(Pin(fd, Some(ino), bytes));
    }

    /** Pins packed-refs, seen while the loose file is absent, and reads the head it gives. */
    method PinPacked(d: DirId) returns (r: Result<string, Error>, ghost s: Sighting, ghost again: Sighting)
      requires Ready() && loose == None && packed == None && !looseAbsent
      requires world.ledger.hold.Some? && world.ledger.hold.value.dir == d && world.ledger.hold.value.since < |world.history|
      requires LooseIn(world.store, d) == None
      modifies this, world
      ensures Ready() && world.Advanced() && loose == None && looseAbsent
      ensures world.open == old(world.open) + Pinned() && Pinned() !! old(world.open)
      ensures r.Success? ==> Pins(s) && s.dir == d && s.Gives(world.ref, r.value) && world.failed == old(world.failed)
      ensures r.Success? ==> s.Within(world.history, |old(world.history)| - 1, world.Now())
      ensures r.Success? ==> again.Same(s) && again.Within(world.history, s.readAt, world.Now())
      ensures r.Success? && world.OnlyGit() ==> Head(world.store, world.ref) == Some(r.value)
      ensures world.Calm() ==>
        world.store == old(world.store) && AllStand(d) &&
        (PackedHead(world.store, world.ref).Some? ==> r == Success(PackedHead(world.store, world.ref).value))
    {
      hide World.Sane, World.OnlyGit;
      looseAbsent := true;
      s := OfPacked(d, 0, "", world.Now(), 0, 0);
      again := s;
      var found := world.OpenPacked();
      if !found.Opened? {
        r := Failure(PublicationError);
        return;
      }
      s := s.(boundAt := world.Now(), ino := found.fd.handle.ino);
      packed := Some(Pin(found.fd, None, None));
      r, s, again := ReadAndVerifyPacked(s, d);
    }

    /** Reads the packed-refs file just opened, and verifies it together with the absence of a loose file. */
    method ReadAndVerifyPacked(ghost start: Sighting, d: DirId) returns (r: Result<string, Error>, ghost s: Sighting, ghost again: Sighting)
      requires Ready() && loose == None && looseAbsent && packed.Some? && packed.value.ino == None
      requires start.OfPacked? && start.dir == d && start.ino == packed.value.fd.handle.ino
      requires world.ledger.hold.Some? && world.ledger.hold.value.dir == d && world.ledger.hold.value.since <= start.absentAt <= start.boundAt
      requires start.boundAt < |world.history| && !start.Shadowed(world.history[start.absentAt])
      requires !start.Displaced(world.history[start.boundAt])
      modifies this, world
      ensures Ready() && world.Advanced() && loose == None && looseAbsent
      ensures packed.Some? && packed.value.fd == old(packed).value.fd && world.open == old(world.open)
      ensures packed.value.ino.Some? ==> packed.value.ino.value == packed.value.fd.handle.ino
      ensures r.Success? ==> Pins(s) && s.dir == d && s.Gives(world.ref, r.value) && world.failed == old(world.failed)
      ensures r.Success? ==> s.Within(world.history, start.absentAt, world.Now())
      ensures r.Success? ==> again.Same(s) && again.Within(world.history, s.readAt, world.Now())
      ensures r.Success? && world.OnlyGit() ==> Head(world.store, world.ref) == Some(r.value)
      ensures world.Calm() ==> world.store == old(world.store) && Stands(packed.value)
      ensures world.Calm() && LooseIn(world.store, d) == None && world.store.packed == Some(packed.value.fd.handle.ino) ==>
        var file := FileAt(world.store, packed.value.fd.handle.ino);
        file.Regular? && ParsePacked(file.bytes, world.ref).Some? ==> r == Success(ParsePacked(file.bytes, world.ref).value)
    {
      hide World.Sane, World.OnlyGit;
      ghost var readAt: nat;
      s, again := start, start;
      r, readAt := ReadPacked();
      if r.Success? {
        s := start.(bytes := packed.value.bytes.value, readAt := readAt);
        ghost var read := world.history;
        var same;
        same, again := PackedStillAlone(d, s);
        if !same {
          r := Failure(PublicationError);
        } else {
          EarlierWithin(world.history, again, readAt, |read| - 1, world.Now());
          if world.OnlyGit() {
            world.PackedHeadStands(s.absentAt, s.boundAt, readAt, s.ino, s.bytes);
          }
        }
      }
    }

    /** The pinned packed-refs file once more, and the absence of a loose file. */
    method PackedStillAlone(d: DirId, ghost s: Sighting) returns (same: bool, ghost again: Sighting)
      requires Ready() && Pins(s) && s.OfPacked? && s.dir == d
      modifies world
      ensures Ready() && world.Advanced() && world.open == old(world.open)
      ensures same ==> again.Same(s) && again.Within(world.history, |old(world.history)| - 1, world.Now())
      ensures same ==> world.failed == old(world.failed)
      ensures world.Calm() ==> world.store == old(world.store) && (old(AllStand(d)) ==> same)
    {
      hide World.Sane, World.OnlyGit;
      again := s;
      ghost var readAt, boundAt, absentAt;
      var packedSame;
      packedSame, readAt, boundAt := VerifyPacked();
      if packedSame.Failure? {
        return false, s;
      }
      ghost var seen := world.history;
      var absent;
      absent, absentAt := VerifyAbsence(d);
      same := absent.Success?;
      again := OfPacked(d, s.ino, s.bytes, absentAt, boundAt, readAt);
      assert world.history[readAt] == seen[readAt] && world.history[boundAt] == seen[boundAt];
    }

    /** Reads a file through a duplicate of its descriptor, which is closed again. */
    method ReadCopy(fd: Fd) returns (bytes: Option<string>, ghost readAt: nat)
      requires Ready() && fd in world.open && fd.handle.OnFile?
      modifies world
      ensures Ready() && world.Advanced() && world.open == old(world.open)
      ensures |old(world.history)| <= readAt + 1 && readAt < |world.history|
      ensures bytes.Some? ==> FileAt(world.history[readAt], fd.handle.ino) == Regular(bytes.value) && world.failed == old(world.failed)
      ensures world.Calm() ==>
        world.store == old(world.store) && (bytes.Some? ==> FileAt(world.store, fd.handle.ino) == Regular(bytes.value)) &&
        (FileAt(world.store, fd.handle.ino).Regular? ==> bytes.Some?)
    {
      hide World.Sane, World.OnlyGit;
      var copy := world.Duplicate(fd);
      readAt := world.Now();
      bytes := None;
      if copy.Opened? {
        bytes, readAt := ReadAndClose(copy.fd);
      }
    }

    method ReadAndClose(fd: Fd) returns (bytes: Option<string>, ghost readAt: nat)
      requires Ready() && fd !in Pinned() && fd in world.open && fd.handle.OnFile?
      modifies world
      ensures Ready() && world.Advanced() && world.open == old(world.open) - {fd}
      ensures |old(world.history)| <= readAt + 1 && readAt < |world.history|
      ensures bytes.Some? ==> FileAt(world.history[readAt], fd.handle.ino) == Regular(bytes.value) && world.failed == old(world.failed)
      ensures world.Calm() ==>
        world.store == old(world.store) && (bytes.Some? ==> FileAt(world.store, fd.handle.ino) == Regular(bytes.value)) &&
        (FileAt(world.store, fd.handle.ino).Regular? ==> bytes.Some?)
    {
      hide World.Sane, World.OnlyGit;
      bytes := world.Read(fd);
      readAt := world.Now();
      ghost var seen := world.history;
      var closed := world.Close(fd);
      if !closed {
        bytes := None;
      }
      assert world.history[readAt] == seen[readAt];
    }

    /** Identity and contents of the packed-refs file just opened. */
    method ReadPacked() returns (r: Result<string, Error>, ghost readAt: nat)
      requires Ready() && packed.Some? && packed.value.ino == None && loose == None
      modifies this, world
      ensures Ready() && world.Advanced() && loose == None && looseAbsent == old(looseAbsent)
      ensures packed.Some? && packed.value.fd == old(packed).value.fd && world.open == old(world.open)
      ensures r.Success? ==>
        packed.value.Complete() && |old(world.history)| <= readAt + 1 && readAt < |world.history| &&
        FileAt(world.history[readAt], packed.value.ino.value) == Regular(packed.value.bytes.value) &&
        ParsePacked(packed.value.bytes.value, world.ref) == Some(r.value) && world.failed == old(world.failed)
      ensures world.Calm() ==> world.store == old(world.store) && Stands(packed.value)
      ensures packed.value.ino.Some? ==> packed.value.ino.value == packed.value.fd.handle.ino
      ensures world.Calm() ==>
        var file := FileAt(world.store, packed.value.fd.handle.ino);
        file.Regular? && ParsePacked(file.bytes, world.ref).Some? ==> r == Success(ParsePacked(file.bytes, world.ref).value)
    {
      hide World.Sane, World.OnlyGit;
      readAt := 0;
      var fd := packed.value.fd;
      var stat := world.Stat(fd);
      if !stat.Stated? || !stat.regular {
        return Failure(PublicationError), 0;
      }
      packed := Some(Pin(fd, Some(stat.ino), None));
      var bytes;
      bytes, readAt := ReadCopy(fd);
      if bytes.None? {
        return Failure(PublicationError), 0;
      }
      packed := Some(Pin(fd, Some(stat.ino), bytes));
      var head := ParsePacked(bytes.value, world.ref);
      r := if head.Some? then Success(head.value) else Failure(PublicationError);
    }

    /** Opens and pins whichever storage is authoritative. */
    method PinHead(d: DirId) returns (r: Result<string, Error>, ghost s: Sighting)
      requires Ready() && loose == None && packed == None && !looseAbsent
      requires world.ledger.hold.Some? && world.ledger.hold.value.dir == d && world.ledger.hold.value.since < |world.history|
      modifies this, world
      ensures Ready() && world.Advanced()
      ensures world.open == old(world.open) + Pinned() && Pinned() !! old(world.open)
      ensures r.Success? ==> Pins(s) && s.dir == d && s.Gives(world.ref, r.value) && world.failed == old(world.failed)
      ensures r.Success? ==> s.Within(world.history, |old(world.history)| - 1, world.Now())
      ensures r.Success? && world.OnlyGit() ==> Head(world.store, world.ref) == Some(r.value)
      ensures world.Calm() ==> world.store == old(world.store) && (r.Success? ==> AllStand(d))
      ensures old(Undisturbed(d)) ==> r == Success(Head(old(world.store), world.ref).value)
    {
      hide World.Sane, World.OnlyGit;
      s := OfLoose(d, 0, "", 0, 0);
      ghost var again: Sighting;
      var found := world.OpenLoose(d);
      match found {
        case Opened(fd) => r, s := PinLoose(fd, d);
        case Missing => r, s, again := PinPacked(d);
        case Fault => r := Failure(PublicationError);
      }
    }

    /** The head that `git ls-remote` answers, if it answers a SHA. */
    method Ask() returns (head: Option<string>, ghost asked: nat, ghost seenAt: nat)
      requires Ready()
      modifies world`clock, world`store, world`history
      ensures Ready() && world.Advanced() && old(world.clock) < asked && |old(world.history)| <= seenAt + 1 && seenAt == world.Now()
      ensures head.Some? ==> world.Replied(world.history, asked, seenAt, head.value)
      ensures world.Calm() ==> world.store == old(world.store)
      ensures world.Calm() && world.Candid() && Head(world.store, world.ref).Some? ==> head == Head(world.store, world.ref)
    {
      hide World.Sane, World.OnlyGit, Head;
      var answer := world.LsRemote();
      asked, seenAt := world.clock, world.Now();
      HeadIsSha(world.store, world.ref);
      head := if answer.Some? then ParseSha(answer.value) else None;
    }

    /** Reads the head under the lock and compares it with what `git ls-remote` answers. */
    method Readback(d: DirId) returns (r: Result<string, Error>, ghost s: Sighting, ghost asked: nat, ghost seenAt: nat)
      requires Ready() && loose == None && packed == None && !looseAbsent
      requires world.ledger.hold.Some? && world.ledger.hold.value.dir == d && world.ledger.hold.value.since < |world.history|
      modifies this, world
      ensures Ready() && world.Advanced()
      ensures world.open == old(world.open) + Pinned() && Pinned() !! old(world.open)
      ensures r.Success? ==> Pins(s) && s.dir == d && s.Gives(world.ref, r.value) && world.failed == old(world.failed)
      ensures r.Success? ==> s.Within(world.history, |old(world.history)| - 1, world.Now())
      ensures r.Success? ==>
        old(world.clock) < asked && |old(world.history)| <= seenAt + 1 && world.Replied(world.history, asked, seenAt, r.value)
      ensures r.Success? && world.OnlyGit() ==> Head(world.history[world.ledger.hold.value.since], world.ref) == Some(r.value)
      ensures world.Calm() ==> world.store == old(world.store) && (r.Success? ==> AllStand(d))
      ensures old(Undisturbed(d)) ==> r == Success(Head(old(world.store), world.ref).value)
    {
      hide World.Sane, World.OnlyGit, World.Candid, World.Replied, Sighting.Within, Sighting.Gives, Head, Pins, AllStand;
      s := OfLoose(d, 0, "", 0, 0);
      var answer;
      answer, asked, seenAt := Ask();
      ghost var seen := world.history;
      r := Failure(PublicationError);
      if answer.Some? {
        assert old(Undisturbed(d)) ==> Undisturbed(d);
        r, s := PinAndCompare(d, answer.value);
        world.RepliedLater(seen, world.history, asked, seenAt, answer.value);
        if r.Success? {
          EarlierWithin(world.history, s, |old(world.history)| - 1, seenAt, world.Now());
        }
      }
    }

    /** Pins the head, compares it with the answer of `git ls-remote`, and looks at the loose name once more. */
    method PinAndCompare(d: DirId, answer: string) returns (r: Result<string, Error>, ghost s: Sighting)
      requires Ready() && loose == None && packed == None && !looseAbsent
      requires world.ledger.hold.Some? && world.ledger.hold.value.dir == d && world.ledger.hold.value.since < |world.history|
      modifies this, world
      ensures Ready() && world.Advanced()
      ensures world.open == old(world.open) + Pinned() && Pinned() !! old(world.open)
      ensures r.Success? ==> r.value == answer && Pins(s) && s.dir == d && s.Gives(world.ref, r.value)
      ensures r.Success? ==> s.Within(world.history, |old(world.history)| - 1, world.Now()) && world.failed == old(world.failed)
      ensures r.Success? && world.OnlyGit() ==> Head(world.history[world.ledger.hold.value.since], world.ref) == Some(r.value)
      ensures world.Calm() ==> world.store == old(world.store) && (r.Success? ==> AllStand(d))
      ensures old(Undisturbed(d)) && Head(old(world.store), world.ref) == Some(answer) ==> r.Success?
    {
      hide World.Sane, World.OnlyGit, Sighting.Within, Sighting.Gives, Head, Pins;
      r, s := PinHead(d);
      if r.Success? && r.value != answer {
        r := Failure(PublicationError);
      }
      if r.Success? {
        if world.OnlyGit() {
          world.HeadSinceLock();
        }
        ghost var pinned := world.history;
        var same := PinnedStands(d);
        if same.Failure? {
          r := Failure(same.error);
        } else {
          WithinLater(pinned, world.history, s, |old(world.history)| - 1, |pinned| - 1, world.Now());
          assert world.history[world.ledger.hold.value.since] == pinned[world.ledger.hold.value.since];
        }
      }
    }

    /** The loose file once more, or its absence. */
    method PinnedStands(d: DirId) returns (r: Result<(), Error>)
      requires Ready()
      modifies world
      ensures Ready() && world.Advanced() && world.open == old(world.open)
      ensures r.Success? ==> world.failed == old(world.failed)
      ensures world.Calm() ==> world.store == old(world.store) && (old(AllStand(d)) ==> r.Success?)
    {
      hide World.Sane, World.OnlyGit;
      var same, _, _ := VerifyLoose(d);
      if same.Failure? {
        return same;
      }
      var absent, _ := VerifyAbsence(d);
      r := absent;
    }

    /** Opens one component of the branch path; a missing one may be created first. */
    method OpenOrCreate(level: nat, create: bool) returns (r: Entering, ghost enteredAt: nat)
      requires Ready() && level <= world.depth
      modifies world
      ensures Ready() && world.Advanced() && world.failed == old(world.failed)
      ensures if r.Entered? then r.fd !in old(world.open) && world.open == old(world.open) + {r.fd} else world.open == old(world.open)
      ensures enteredAt == world.Now() && |old(world.history)| <= enteredAt + 1
      ensures r.Entered? ==> old(world.clock) < world.clock && world.Leads(level, world.clock) == Some(r.dir)
      ensures world.Calm() && old(world.store).branchDir.Some? ==> world.store == old(world.store) && r.Entered?
    {
      hide World.Sane, World.OnlyGit;
      r := world.OpenComponent(level);
      if r.NoDirectory? && create {
        var made := world.MakeComponent();
        if made {
          r := world.OpenComponent(level);
        }
      }
      enteredAt := world.Now();
    }

    /** Opens one component of the branch path and notes its identity; `noted` says whether both succeeded. */
    method Enter(level: nat, create: bool) returns (r: Entering, noted: bool, ghost enteredAt: nat)
      requires Ready() && level <= world.depth
      modifies world
      ensures Ready() && world.Advanced() && (noted ==> r.Entered?) && world.failed == old(world.failed)
      ensures if r.Entered? then r.fd !in old(world.open) && world.open == old(world.open) + {r.fd} else world.open == old(world.open)
      ensures |old(world.history)| <= enteredAt + 1 && enteredAt < |world.history|
      ensures r.Entered? && level == world.depth ==> world.history[enteredAt].branchDir == Some(r.dir)
      ensures r.Entered? && level < world.depth ==> world.Led(level, r.dir, old(world.clock), world.clock)
      ensures world.Calm() && old(world.store).branchDir.Some? ==>
        world.store == old(world.store) && noted && (level == world.depth ==> Some(r.dir) == world.store.branchDir)
    {
      hide World.Sane, World.OnlyGit;
      r, enteredAt := OpenOrCreate(level, create);
      noted := false;
      if r.Entered? {
        ghost var seen := world.history;
        assert level < world.depth ==> world.outer(world.clock, level) == r.dir;
        var stat := world.Query();
        noted := stat.Some?;
        assert world.history[enteredAt] == seen[enteredAt];
      }
    }

    /** Under calm, the directories above the branch's own are those that the path always leads to. */
    ghost predicate AtHome(outer: seq<DirId>)
    {
      |outer| == world.depth &&
      (world.Calm() ==> forall level: nat | level < |outer| :: outer[level] == world.outer(0, level))
    }

    lemma LedHome(outer: seq<DirId>, from: nat, to: nat)
      requires world.AllLed(outer, from, to) && |outer| == world.depth
      ensures AtHome(outer)
    {
      if world.Calm() {
        forall level: nat | level < |outer|
          ensures outer[level] == world.outer(0, level)
        {
          assert world.Led(level, outer[level], from, to);
        }
      }
    }

    /** Whether the directory entered is the one wanted, if one is wanted. */
    predicate Wanted(wanted: Option<Lease>, level: nat, dir: DirId)
    {
      wanted.Some? ==>
        if level < |wanted.value.outer| then dir == wanted.value.outer[level] else dir == wanted.value.dir
    }

    /**
     Enters the directories above the branch's own, one inside the other, and compares each with the one wanted,
     if any; whatever was opened is left to the caller.
     */
    method EnterOuter(create: bool, wanted: Option<Lease>) returns (ok: bool, parents: seq<Fd>, outer: seq<DirId>)
      requires Ready() && (wanted.Some? ==> AtHome(wanted.value.outer))
      modifies world
      ensures Ready() && world.Advanced() && Leased(parents, old(world.open), world.open) && world.failed == old(world.failed)
      ensures world.AllLed(outer, old(world.clock), world.clock)
      ensures ok ==> |outer| == world.depth && (wanted.Some? ==> outer == wanted.value.outer)
      ensures world.Calm() && old(world.store).branchDir.Some? ==> world.store == old(world.store) && ok
    {
      hide World.Sane, World.OnlyGit;
      parents, outer, ok := [], [], true;
      while ok && |outer| < world.depth
        invariant Ready() && world.Advanced() && Leased(parents, old(world.open), world.open) && world.failed == old(world.failed)
        invariant world.AllLed(outer, old(world.clock), world.clock)
        invariant wanted.Some? ==> outer == wanted.value.outer[..|outer|]
        invariant world.Calm() && old(world.store).branchDir.Some? ==> world.store == old(world.store) && ok
        decreases ok, world.depth - |outer|
      {
        ghost var before := world.clock;
        var entered, noted, _ := Enter(|outer|, create);
        if entered.Entered? {
          parents := parents + [entered.fd];
        }
        ok := noted && Wanted(wanted, |outer|, entered.dir);
        if ok {
          world.AllLedLonger(outer, entered.dir, old(world.clock), before, world.clock);
          outer := outer + [entered.dir];
        } else {
          world.AllLedLater(outer, old(world.clock), before, world.clock);
        }
      }
    }

    /** All directories of the branch path, down to the one that holds the branch; whatever was opened is left to the caller. */
    method EnterAll(create: bool, wanted: Option<Lease>) returns (ok: bool, lease: Lease, ghost enteredAt: nat)
      requires Ready() && (wanted.Some? ==> AtHome(wanted.value.outer))
      modifies world
      ensures Ready() && world.Advanced() && Leased(lease.parents, old(world.open), world.open) && world.failed == old(world.failed)
      ensures ok ==>
        |old(world.history)| <= enteredAt + 1 && enteredAt < |world.history| &&
        world.history[enteredAt].branchDir == Some(lease.dir)
      ensures ok ==>
        AtHome(lease.outer) && world.AllLed(lease.outer, old(world.clock), world.clock) &&
        (wanted.Some? ==> lease.outer == wanted.value.outer && lease.dir == wanted.value.dir)
      ensures world.Calm() && old(world.store).branchDir.Some? && (wanted.Some? ==> old(world.store).branchDir == Some(wanted.value.dir)) ==>
        world.store == old(world.store) && ok && Some(lease.dir) == world.store.branchDir
    {
      hide World.Sane, World.OnlyGit;
      enteredAt := 0;
      var parents, outer;
      ok, parents, outer := EnterOuter(create, wanted);
      lease := Lease(parents, outer, 0);
      if ok {
        ghost var until := world.clock;
        var last, noted;
        last, noted, enteredAt := Enter(world.depth, create);
        if last.Entered? {
          lease := Lease(parents + [last.fd], outer, last.dir);
        }
        ok := noted && Wanted(wanted, world.depth, last.dir);
        world.AllLedLater(outer, old(world.clock), until, world.clock);
        LedHome(outer, old(world.clock), world.clock);
      }
    }

    /** Opens the directories and creates the lock file; on failure what was opened is closed again. */
    method AcquireLock() returns (r: Result<Lease, Error>, lock: Fd, ghost enteredAt: nat)
      requires Ready() && world.ledger.hold == None
      modifies world, world.ledger`hold
      ensures Ready() && world.Advanced()
      ensures r.Failure? ==> world.Tidy(old(world.open), r.error == RawOsError) && world.ledger.hold == None
      ensures r.Success? ==>
        lock in world.open && lock !in old(world.open) && lock !in r.value.parents && world.failed == old(world.failed) &&
        Leased(r.value.parents, old(world.open), world.open - {lock}) && AtHome(r.value.outer) &&
        world.ledger.hold == Some(Hold(world.Now(), r.value.dir)) && LockIn(world.store, r.value.dir) == Some(Us)
      ensures r.Success? ==>
        |old(world.history)| <= enteredAt + 1 && enteredAt < |world.history| &&
        world.history[enteredAt].branchDir == Some(r.value.dir)
      ensures old(Free()) ==>
        r.Success? && Some(r.value.dir) == old(world.store).branchDir && Undisturbed(r.value.dir) &&
        world.store == world.WithLock(old(world.store), r.value.dir)
    {
      hide World.Sane, World.OnlyGit;
      lock := Fd(0, OnLock);
      var ok, lease;
      ok, lease, enteredAt := EnterAll(true, None);
      ghost var leased := world.open;
      if ok {
        var created := world.CreateLock(lease.dir, enteredAt);
        if created.Opened? {
          assert world.open - {created.fd} == leased;
          if old(Free()) {
            world.LockKeepsHead(old(world.store), lease.dir);
          }
          return Success(lease), created.fd, enteredAt;
        }
      }
      var closed := world.CloseAll(lease.parents);
      r := Failure(if closed then PublicationError else RawOsError);
    }

    /** The path of the branch leads through the same directories to the one that holds the lock. */
    method VerifyHierarchy(lease: Lease) returns (r: Result<(), Error>, ghost linkedAt: nat)
      requires Ready() && AtHome(lease.outer)
      modifies world
      ensures Ready() && world.Advanced() && world.Tidy(old(world.open), r == Failure(RawOsError))
      ensures r.Success? ==>
        |old(world.history)| <= linkedAt + 1 && linkedAt < |world.history| && world.failed == old(world.failed) &&
        world.history[linkedAt].branchDir == Some(lease.dir) && world.AllLed(lease.outer, old(world.clock), world.clock)
      ensures world.Calm() && old(world.store).branchDir == Some(lease.dir) ==> world.store == old(world.store) && r.Success?
    {
      hide World.Sane, World.OnlyGit;
      var ok, again;
      ok, again, linkedAt := EnterAll(false, Some(lease));
      ghost var seen, until := world.history, world.clock;
      var closed := world.CloseAll(again.parents);
      if ok {
        world.AllLedLater(lease.outer, old(world.clock), until, world.clock);
        assert world.history[linkedAt] == seen[linkedAt];
      }
      r := if !closed then Failure(RawOsError) else if ok then Success(()) else Failure(PublicationError);
    }

    /** The checks of the pinned repository handles and of the endpoint path after the reading. */
    method VerifyEndpoint() returns (r: Result<(), Error>)
      requires Ready()
      modifies world
      ensures Ready() && world.Advanced() && world.open == old(world.open) && world.failed == old(world.failed)
      ensures world.Calm() ==> world.store == old(world.store) && r.Success?
    {
      hide World.Sane, World.OnlyGit;
      var git := world.Query();
      if git != Some(true) {
        return Failure(if git.None? then RawOsError else PublicationError);
      }
      var common := world.Query();
      if common != Some(true) {
        return Failure(if common.None? then RawOsError else PublicationError);
      }
      var endpoint := world.Query();
      r := if endpoint == Some(true) then Success(()) else Failure(PublicationError);
    }

    /** All pins again, in the order loose file, loose absence, packed-refs. */
    method VerifyPins(d: DirId, ghost s: Sighting) returns (r: Result<(), Error>, ghost again: Sighting)
      requires Ready() && Pins(s) && s.dir == d
      modifies world
      ensures Ready() && world.Advanced() && world.open == old(world.open)
      ensures r.Success? ==> again.Same(s) && again.Within(world.history, |old(world.history)| - 1, world.Now())
      ensures r.Success? ==> world.failed == old(world.failed)
      ensures world.Calm() ==> world.store == old(world.store) && (old(AllStand(d)) ==> r.Success?)
    {
      hide World.Sane, World.OnlyGit;
      again := s;
      ghost var absentAt, readAt, boundAt;
      r, readAt, boundAt := VerifyLoose(d);
      if r.Failure? {
        return;
      }
      if loose.Some? {
        again := OfLoose(d, s.ino, s.bytes, boundAt, readAt);
      }
      r, absentAt := VerifyAbsence(d);
      if r.Failure? {
        return;
      }
      r, readAt, boundAt := VerifyPacked();
      if r.Success? && looseAbsent {
        again := OfPacked(d, s.ino, s.bytes, absentAt, boundAt, readAt);
      }
    }

    /** What happens under the lock: refuse a symbolic branch, read, check the endpoint and the hierarchy, classify. */
    method ReadUnderLock(lease: Lease, against: Option<(string, string)>)
      returns (r: Result<Reading, Error>, ghost t: Course)
      requires Ready() && loose == None && packed == None && !looseAbsent && AtHome(lease.outer)
      requires world.ledger.hold.Some? && world.ledger.hold.value.dir == lease.dir
      requires world.ledger.hold.value.since < |world.history|
      modifies this, world, world.ledger`judged
      ensures Ready() && world.Advanced()
      ensures world.Tidy(old(world.open) + Pinned(), r == Failure(RawOsError)) && Pinned() !! old(world.open)
      ensures Judges(against, r, t) && Seen(world.history, world.ledger.hold.value, r, t)
      ensures old(Undisturbed(lease.dir)) ==>
        world.store == old(world.store) && r.Success? && Some(r.value.head) == Head(old(world.store), world.ref)
    {
      hide World.Sane, World.Below, World.Calm, World.Candid, Pins, World.OnlyGit, World.Replied, Course.Shows,
           PlainLoose, PlainBetween, Head, AtHome;
      t := Course(OfLoose(lease.dir, 0, "", 0, 0), 0, SeenAgain(OfLoose(lease.dir, 0, "", 0, 0)), 0, 0);
      HeadMeansPlain(world.store, lease.dir, world.ref);
      var plain, _, _ := RefuseSymbolic(lease.dir);
      if plain.Failure? {
        return Failure(plain.error), t;
      }
      assert old(Undisturbed(lease.dir)) ==> Undisturbed(lease.dir);
      r, t := ReadAndClassify(lease, against);
    }

    /** A reading is classified as asked, at the instant on record, and was answered by a call of its own; no close failed. */
    twostate predicate Judges(against: Option<(string, string)>, new r: Result<Reading, Error>, t: Course)
      reads world, world.ledger
    {
      if r.Success? then
        r.value.Classified(against) && (t.check.Judging? <==> against.Some?) && world.failed == old(world.failed) &&
        world.ledger.judged == old(world.ledger.judged) + t.check.Entries(r.value) &&
        old(world.clock) < t.asked
      else old(world.ledger.judged) <= world.ledger.judged
    }

    /** The rest of the reading. */
    method ReadAndClassify(lease: Lease, against: Option<(string, string)>)
      returns (r: Result<Reading, Error>, ghost t: Course)
      requires Ready() && loose == None && packed == None && !looseAbsent && AtHome(lease.outer)
      requires world.ledger.hold.Some? && world.ledger.hold.value.dir == lease.dir
      requires world.ledger.hold.value.since < |world.history|
      modifies this, world, world.ledger`judged
      ensures Ready() && world.Advanced()
      ensures world.Tidy(old(world.open) + Pinned(), r == Failure(RawOsError)) && Pinned() !! old(world.open)
      ensures Judges(against, r, t) && Seen(world.history, world.ledger.hold.value, r, t)
      ensures old(Undisturbed(lease.dir)) ==>
        world.store == old(world.store) && r.Success? && Some(r.value.head) == Head(old(world.store), world.ref)
    {
      hide World.Sane, World.Below, World.Calm, World.Candid, Pins, World.OnlyGit, World.Replied, AllStand,
           Sighting.Within, Sighting.Gives, Confirmation.Confirms, Confirmation.Entries, Reading.Classified, Head,
           AtHome;
      t := Course(OfLoose(lease.dir, 0, "", 0, 0), 0, SeenAgain(OfLoose(lease.dir, 0, "", 0, 0)), 0, 0);
      var head;
      ghost var s, asked, seenAt;
      head, s, asked, seenAt := Readback(lease.dir);
      if head.Failure? {
        return Failure(head.error), t;
      }
      ghost var pinned := world.history;
      ghost var linkedAt, check;
      r, linkedAt, check := VerifyAndClassify(lease, head.value, s, against);
      t := Course(s, linkedAt, check, asked, seenAt);
      if r.Success? {
        WithinLater(pinned, world.history, s, |old(world.history)| - 1, |pinned| - 1, linkedAt);
        EarlierWithin(world.history, s, world.ledger.hold.value.since, |old(world.history)| - 1, linkedAt);
        world.RepliedLater(pinned, world.history, asked, seenAt, head.value);
      }
    }

    /** The endpoint, the hierarchy, and the pins around classification. */
    method VerifyAndClassify(lease: Lease, head: string, ghost s: Sighting, against: Option<(string, string)>)
      returns (r: Result<Reading, Error>, ghost linkedAt: nat, ghost check: Confirmation)
      requires Ready() && Pins(s) && s.dir == lease.dir && AtHome(lease.outer)
      modifies world, world.ledger`judged
      ensures Ready() && world.Advanced() && world.Tidy(old(world.open), r == Failure(RawOsError))
      ensures r.Success? ==> r.value.head == head && r.value.Classified(against) && world.failed == old(world.failed)
      ensures r.Success? ==>
        (check.Judging? <==> against.Some?) && world.ledger.judged == old(world.ledger.judged) + check.Entries(r.value)
      ensures old(world.ledger.judged) <= world.ledger.judged
      ensures r.Success? ==>
        |old(world.history)| <= linkedAt + 1 && linkedAt < |world.history| &&
        world.history[linkedAt].branchDir == Some(lease.dir) &&
        check.Confirms(world.history, s, linkedAt, world.Now())
      ensures world.Calm() && old(AllStand(lease.dir)) && old(world.store).branchDir == Some(lease.dir) ==>
        world.store == old(world.store) && r.Success?
    {
      hide World.Sane, World.Below, World.Calm, World.Candid, Pins, World.OnlyGit;
      linkedAt, check := 0, SeenAgain(s);
      var endpoint := VerifyEndpoint();
      if endpoint.Failure? {
        return Failure(endpoint.error), 0, check;
      }
      var hierarchy;
      hierarchy, linkedAt := VerifyHierarchy(lease);
      if hierarchy.Failure? {
        return Failure(hierarchy.error), 0, check;
      }
      ghost var linked := world.history;
      assert old(AllStand(lease.dir)) && world.Calm() && old(world.store).branchDir == Some(lease.dir) ==> AllStand(lease.dir);
      r, check := ClassifyPinned(lease.dir, head, s, against);
      if r.Success? {
        ConfirmsEarlier(world.history, check, s, linkedAt, |linked| - 1, world.Now());
        assert world.history[linkedAt] == linked[linkedAt];
      }
    }

    /** The pins are verified, the head is classified if that is asked for, and then the pins are verified once more. */
    method ClassifyPinned(d: DirId, head: string, ghost s: Sighting, against: Option<(string, string)>)
      returns (r: Result<Reading, Error>, ghost check: Confirmation)
      requires Ready() && Pins(s) && s.dir == d
      modifies world, world.ledger`judged
      ensures Ready() && world.Advanced() && world.open == old(world.open)
      ensures r.Success? ==> r.value.head == head && r.value.Classified(against) && world.failed == old(world.failed)
      ensures r.Success? ==>
        (check.Judging? <==> against.Some?) && world.ledger.judged == old(world.ledger.judged) + check.Entries(r.value)
      ensures old(world.ledger.judged) <= world.ledger.judged
      ensures r.Success? ==> check.Confirms(world.history, s, |old(world.history)| - 1, world.Now())
      ensures world.Calm() && old(AllStand(d)) ==> world.store == old(world.store) && r.Success?
    {
      hide World.Sane, World.Below, Pins, World.OnlyGit, Sighting.Within;
      check := SeenAgain(s);
      var pins;
      ghost var before, after;
      pins, before := VerifyPins(d, s);
      if pins.Failure? {
        return Failure(pins.error), check;
      }
      if against.None? {
        return Success(Reading(head, None)), SeenAgain(before);
      }
      ghost var seen := world.history;
      var state := world.Judge(head, against.value.0, against.value.1);
      ghost var at := world.Now();
      assert world.Calm() && old(AllStand(d)) ==> AllStand(d);
      pins, after := VerifyPins(d, s);
      check := Judging(before, at, after);
      if pins.Failure? {
        return Failure(pins.error), check;
      }
      r := Success(Reading(head, Some(state)));
      WithinLater(seen, world.history, before, |old(world.history)| - 1, |seen| - 1, at);
    }

    /** How many files are pinned. */
    function PinCount(): nat
      reads this
    {
      (if loose.Some? then 1 else 0) + if packed.Some? then 1 else 0
    }

    /** Closes the pinned descriptors and then the lock; the first failure leaves the others open. */
    method ClosePinsAndLock(lock: Fd) returns (ok: bool)
      requires Ready() && lock in world.open && lock !in Pinned()
      modifies this, world
      ensures Ready() && world.Advanced() && loose == None && packed == None
      ensures old(world.open) - old(Pinned()) - {lock} <= world.open <= old(world.open)
      ensures ok ==> world.open == old(world.open) - old(Pinned()) - {lock}
      ensures ok <==> world.failed == old(world.failed)
      ensures ok <==> forall n | old(world.clock) < n <= old(world.clock) + old(PinCount()) + 1 :: !world.faults(n)
      ensures world.Calm() ==> world.store == old(world.store) && ok
    {
      hide World.Sane, World.OnlyGit;
      var first, second := loose, packed;
      loose, packed, ok := None, None, true;
      if first.Some? {
        ok := world.Close(first.value.fd);
      }
      if ok && second.Some? {
        ok := world.Close(second.value.fd);
      }
      if ok {
        ok := world.Close(lock);
      }
    }

    /**
     Closes the pinned descriptors and then the lock, removes the lock file and closes the directories. The removal
     is attempted exactly when none of those closes fails; whatever else fails, the directories are closed after it.
     */
    method Release(lease: Lease, lock: Fd) returns (ok: bool, ghost releasedAt: nat, ghost fate: Fate)
      requires Ready() && lock in world.open && lock !in Pinned() && lock !in lease.parents
      requires lease.OpenIn(world.open) && lease.Fds() !! Pinned()
      requires world.ledger.hold.Some? && world.ledger.hold.value.dir == lease.dir
      requires world.ledger.hold.value.since < |world.history| && LockIn(world.history[world.ledger.hold.value.since], lease.dir) == Some(Us)
      modifies this, world, world.ledger`hold, world.ledger`periods
      ensures Ready() && world.Advanced() && world.ledger.hold == None && loose == None && packed == None
      ensures world.Tidy(old(world.open) - old(Pinned()) - {lock} - lease.Fds(), !ok)
      ensures world.ledger.periods == old(world.ledger.periods) + [Period(lease.dir, old(world.ledger.hold).value.since, releasedAt, fate)]
      ensures fate != Abandoned <==>
        forall n | old(world.clock) < n <= old(world.clock) + old(PinCount()) + 1 :: !world.faults(n)
      ensures fate == Abandoned ==> lease.Fds() <= world.open && releasedAt == world.Now()
      ensures ok ==> fate == Removed && world.failed == old(world.failed)
      ensures |old(world.history)| <= releasedAt < |world.history|
      ensures world.OnlyGit() ==> world.Ended(world.history, old(world.ledger.hold.value), releasedAt, fate)
      ensures world.Calm() && LockIn(old(world.store), lease.dir).Some? ==> ok && world.store == world.WithoutLock(old(world.store), lease.dir)
    {
      hide World.Sane, World.OnlyGit, World.HeldSince;
      ghost var start := world.history;
      ok := ClosePinsAndLock(lock);
      assert world.history[world.ledger.hold.value.since] == start[world.ledger.hold.value.since];
      if ok {
        ok, releasedAt, fate := UnlinkAndClose(lease);
      } else {
        world.GiveUp(lease.dir);
        releasedAt, fate := world.Now(), Abandoned;
        assert world.history[releasedAt] == world.store;
      }
    }

    /** Removes the lock file and closes the directories, whether or not that succeeded. */
    method UnlinkAndClose(lease: Lease) returns (ok: bool, ghost releasedAt: nat, ghost fate: Fate)
      requires Ready() && loose == None && packed == None && lease.OpenIn(world.open)
      requires world.ledger.hold.Some? && world.ledger.hold.value.dir == lease.dir
      requires world.ledger.hold.value.since < |world.history| && LockIn(world.history[world.ledger.hold.value.since], lease.dir) == Some(Us)
      modifies world, world.ledger`hold, world.ledger`periods
      ensures Ready() && world.Advanced() && world.ledger.hold == None
      ensures world.Tidy(old(world.open) - lease.Fds(), !ok)
      ensures world.ledger.periods == old(world.ledger.periods) + [Period(lease.dir, old(world.ledger.hold).value.since, releasedAt, fate)]
      ensures fate != Abandoned && (ok <==> fate == Removed && world.failed == old(world.failed))
      ensures |old(world.history)| <= releasedAt < |world.history|
      ensures world.OnlyGit() ==> world.HeldSince(world.history[..releasedAt], old(world.ledger.hold.value))
      ensures world.Calm() && LockIn(old(world.store), lease.dir).Some? ==> ok && world.store == world.WithoutLock(old(world.store), lease.dir)
    {
      hide World.Sane, World.OnlyGit, World.HeldSince;
      var removed := world.UnlinkLock(lease.dir);
      ghost var unlinked := world.history;
      releasedAt, fate := world.Now(), if removed then Removed else RemovalFailed;
      var closed := world.CloseAll(lease.parents);
      assert world.history[..releasedAt] == unlinked[..releasedAt];
      ok := removed && closed;
    }

    /** What a reading leaves on record, and what a successful one rests on. */
    twostate predicate Delivers(against: Option<(string, string)>, new r: Result<Reading, Error>, trail: Trail)
      reads world, world.ledger
    {
      world.Advanced() && world.ledger.hold == None &&
      world.ledger.periods == old(world.ledger.periods) + trail.Periods() && trail.Released(r) &&
      (trail.LockedBetween? ==> |old(world.history)| <= trail.lockedAt + 1 && Judges(against, r, trail.course)) &&
      (trail.NotLocked? ==> world.ledger.judged == old(world.ledger.judged)) && Evident(world.history, r, trail)
    }

    /** What the history shows of a reading. */
    ghost predicate Evident(h: seq<Store>, r: Result<Reading, Error>, trail: Trail)
    {
      (world.OnlyGit() ==> trail.LeftStanding(h)) &&
      (r.Success? ==>
        trail.Supports(h, world.ref, r.value.head) &&
        world.Replied(h, trail.course.asked, trail.course.seenAt, r.value.head) &&
        (world.OnlyGit() ==> trail.Stable(h, world.ref, r.value.head)))
    }

    lemma NotLockedEvident(h: seq<Store>, r: Result<Reading, Error>)
      requires r.Failure?
      ensures Evident(h, r, NotLocked)
    {
    }

    lemma EvidentLater(h: seq<Store>, later: seq<Store>, r: Result<Reading, Error>, final: Result<Reading, Error>, trail: Trail)
      requires h <= later && Evident(h, r, trail) && (final.Success? ==> final == r)
      ensures Evident(later, final, trail)
    {
      TrailLater(h, later, trail, r, world.ref);
    }

    /** What the history shows of a reading while its lock stands. */
    ghost predicate Seen(h: seq<Store>, p: Hold, r: Result<Reading, Error>, t: Course)
    {
      r.Success? ==>
        p.since < |h| && t.Shows(h, p.since, |h| - 1, p.dir, world.ref, r.value.head) &&
        world.Replied(h, t.asked, t.seenAt, r.value.head) && (world.OnlyGit() ==> Head(h[p.since], world.ref) == Some(r.value.head))
    }

    /** The evidence of a reading that saw `t` under the hold `p`, after its release. */
    lemma EvidentAfterRelease(read: seq<Store>, h: seq<Store>, r: Result<Reading, Error>, ok: bool, t: Course, p: Hold,
                              releasedAt: nat, fate: Fate)
      requires read <= h && p.since < |read| <= releasedAt < |h|
      requires (world.OnlyGit() ==> world.Ended(h, p, releasedAt, fate)) && Seen(read, p, r, t) == true
      ensures Evident(h, if ok then r else Failure(RawOsError), LockedBetween(p.dir, p.since, t, releasedAt, fate))
    {
      hide Course.Shows, World.Replied, Head;
      if r.Success? {
        ShowsLater(read, h, t, p.since, |read| - 1, releasedAt - 1, p.dir, world.ref, r.value.head);
        world.RepliedLater(read, h, t.asked, t.seenAt, r.value.head);
        if world.OnlyGit() {
          world.HeldHead(h, releasedAt, p, Some(r.value.head));
        }
      }
    }

    /** Everything between opening the repository handles and closing them: lock, read, release. */
    method ReadLocked(against: Option<(string, string)>) returns (r: Result<Reading, Error>, ghost trail: Trail)
      requires Ready() && loose == None && packed == None && !looseAbsent && world.ledger.hold == None
      modifies this, world, world.ledger`hold, world.ledger`periods, world.ledger`judged
      ensures Ready() && Pinned() == {} && world.Tidy(old(world.open), r == Failure(RawOsError)) && Delivers(against, r, trail)
      ensures old(Free()) ==> r.Success? && Some(r.value.head) == Head(old(world.store), world.ref) && world.store == old(world.store)
    {
      hide World.Sane, World.OnlyGit, Evident;
      trail := NotLocked;
      var lease, lock, _ := AcquireLock();
      if lease.Failure? {
        r := Failure(lease.error);
        NotLockedEvident(world.history, r);
      } else {
        r, trail := ReadAndRelease(lease.value, lock, against);
      }
    }

    /** The reading under the lock, and the release in every case; a failing release replaces the result. */
    method ReadAndRelease(lease: Lease, lock: Fd, against: Option<(string, string)>)
      returns (r: Result<Reading, Error>, ghost trail: Trail)
      requires Ready() && loose == None && packed == None && !looseAbsent && AtHome(lease.outer)
      requires world.ledger.hold == Some(Hold(world.Now(), lease.dir)) && LockIn(world.store, lease.dir) == Some(Us)
      requires lock in world.open && lock !in lease.parents && lease.OpenIn(world.open)
      modifies this, world, world.ledger`hold, world.ledger`periods, world.ledger`judged
      ensures Ready() && Pinned() == {} && Delivers(against, r, trail) && trail.LockedBetween?
      ensures world.Tidy(old(world.open) - {lock} - lease.Fds(), r == Failure(RawOsError))
      ensures old(Undisturbed(lease.dir)) ==>
        r.Success? && Some(r.value.head) == Head(old(world.store), world.ref) &&
        world.store == world.WithoutLock(old(world.store), lease.dir)
    {
      hide World.Sane, World.OnlyGit, World.Ended, Evident, Seen;
      ghost var p := world.ledger.hold.value;
      ghost var t, releasedAt, fate;
      r, t := ReadUnderLock(lease, against);
      ghost var read := world.history;
      assert read[p.since] == old(world.history)[p.since];
      assert lock !in Pinned() && lease.Fds() !! Pinned();
      assert lease.OpenIn(world.open);
      var ok;
      ok, releasedAt, fate := Release(lease, lock);
      trail := LockedBetween(lease.dir, p.since, t, releasedAt, fate);
      EvidentAfterRelease(read, world.history, r, ok, t, p, releasedAt, fate);
      if !ok {
        r := Failure(RawOsError);
      }
    }

    /** Opens the two repository handles; a failure leaves none open. */
    method OpenHandles() returns (own: Result<seq<Fd>, Error>)
      requires Ready()
      modifies world
      ensures Ready() && world.Advanced() && (own.Success? ==> world.failed == old(world.failed))
      ensures if own.Success? then Leased(own.value, old(world.open), world.open) else world.open == old(world.open)
      ensures world.Calm() ==> world.store == old(world.store) && own.Success?
    {
      hide World.Sane, World.OnlyGit;
      var git := world.OpenHandle();
      if !git.Opened? {
        return Failure(PublicationError);
      }
      var common := world.OpenHandle();
      if !common.Opened? {
        var closed := world.Close(git.fd);
        return Failure(if closed then PublicationError else RawOsError);
      }
      own := Success([git.fd, common.fd]);
    }

    /**
     The stable reader: it opens the repository handles itself unless the caller lends two. On every exit the open
     descriptors are those of the entry and no lock file is left behind, unless the error is raw.
     */
    method StableHead(lent: bool, against: Option<(string, string)>) returns (r: Result<Reading, Error>, ghost trail: Trail)
      requires Ready() && loose == None && packed == None && !looseAbsent && world.ledger.hold == None
      modifies this, world, world.ledger`hold, world.ledger`periods, world.ledger`judged
      ensures world.Valid() && world.Tidy(old(world.open), r == Failure(RawOsError)) && Delivers(against, r, trail)
      ensures trail.Undermined(world.history) ==> r.Failure?
      ensures old(Free()) ==> r.Success? && Some(r.value.head) == Head(old(world.store), world.ref) && world.store == old(world.store)
    {
      hide World.Sane, World.OnlyGit;
      if lent {
        r, trail := ReadChecked(against);
      } else {
        r, trail := ReadWithHandles(against);
      }
      if r.Success? {
        InterferenceDetected(world.history, trail, world.ref, r.value.head);
      }
    }

    /** The reading between opening the repository handles and closing them. */
    method ReadWithHandles(against: Option<(string, string)>) returns (r: Result<Reading, Error>, ghost trail: Trail)
      requires Ready() && loose == None && packed == None && !looseAbsent && world.ledger.hold == None
      modifies this, world, world.ledger`hold, world.ledger`periods, world.ledger`judged
      ensures Ready() && Pinned() == {} && world.Tidy(old(world.open), r == Failure(RawOsError)) && Delivers(against, r, trail)
      ensures old(Free()) ==> r.Success? && Some(r.value.head) == Head(old(world.store), world.ref) && world.store == old(world.store)
    {
      hide World.Sane, World.OnlyGit, Evident;
      trail := NotLocked;
      var own := OpenHandles();
      if own.Failure? {
        r := Failure(own.error);
        NotLockedEvident(world.history, r);
      } else {
        r, trail := ReadChecked(against);
        ghost var before, read := world.history, r;
        var closed := world.CloseAll(own.value);
        if !closed {
          r := Failure(RawOsError);
        }
        EvidentLater(before, world.history, read, r, trail);
      }
    }

    /** The checks of the endpoint, and then the reading under the lock. */
    method ReadChecked(against: Option<(string, string)>) returns (r: Result<Reading, Error>, ghost trail: Trail)
      requires Ready() && loose == None && packed == None && !looseAbsent && world.ledger.hold == None
      modifies this, world, world.ledger`hold, world.ledger`periods, world.ledger`judged
      ensures Ready() && Pinned() == {} && world.Tidy(old(world.open), r == Failure(RawOsError)) && Delivers(against, r, trail)
      ensures old(Free()) ==> r.Success? && Some(r.value.head) == Head(old(world.store), world.ref) && world.store == old(world.store)
    {
      hide World.Sane, World.OnlyGit, Evident;
      trail := NotLocked;
      var endpoint := VerifyEndpoint();
      if endpoint.Failure? {
        r := Failure(endpoint.error);
        NotLockedEvident(world.history, r);
      } else {
        r, trail := ReadLocked(against);
      }
    }
  }

  /** A branch whose loose file is file 0 in directory 0. */
  function LooseBranch(): (s: Store)
    ensures Sound(s) && s.branchDir == Some(0) && LooseIn(s, 0) == Some(0)
    ensures forall d {:trigger LockIn(s, d)} :: LockIn(s, d) == None
  {
    Store(map[0 := Regular("")], map[0 := Dir(Some(0), None, false)], Some(0), None)
  }

  /** A world without other processes in which call number 3 fails. */
  method FaultyWorld() returns (world: World)
    ensures fresh(world) && fresh(world.ledger) && world.Valid() && world.OnlyGit() && world.clock == 0
    ensures world.history == [LooseBranch()] && world.store == LooseBranch() && world.Lockable(world.store, 0)
    ensures world.open == {} && world.ledger.hold == None && world.ledger.periods == []
    ensures world.Spared(0) && world.Spared(1) && world.faults(3)
  {
    hide World.Sane;
    world := new World("main", 0, LooseBranch(), _ => [], n => n == 3, _ => true, _ => 0, (_, _) => 0, (_, head) => head,
                       _ => false, _ => None, _ => None, _ => true, None);
  }

  /** A reader in such a world, with the lock taken by call number 1 and the loose file opened by call number 2. */
  method PinnedUnderLock() returns (reader: Reader, lock: Fd)
    ensures fresh(reader) && fresh(reader.world) && fresh(reader.world.ledger) && reader.Ready() && reader.world.OnlyGit()
    ensures reader.world.clock == 2 && reader.world.faults(3) && reader.PinCount() == 1 && reader.world.ledger.periods == []
    ensures lock in reader.world.open && lock !in reader.Pinned()
    ensures reader.world.ledger.hold.Some? && reader.world.ledger.hold.value.dir == 0
    ensures reader.world.ledger.hold.value.since < |reader.world.history|
    ensures LockIn(reader.world.history[reader.world.ledger.hold.value.since], 0) == Some(Us)
  {
    hide World.Sane, World.OnlyGit, World.Spared, LooseBranch, LockIn;
    var world := FaultyWorld();
    reader := new Reader(world);
    var created := world.CreateLock(0, 0);
    lock := created.fd;
    ghost var locked := world.history;
    assert LockIn(locked[world.ledger.hold.value.since], 0) == Some(Us);
    var file := world.OpenLoose(0);
    reader.loose := Some(Pin(file.fd, None, None));
    assert world.history[world.ledger.hold.value.since] == locked[world.ledger.hold.value.since];
  }

  /** Without interference, one failing close leaves the lock file behind: the pinned file is closed first, with call number 3. */
  method LockLeftBehind() returns (world: World)
    ensures world.Valid() && world.OnlyGit() && LockIn(world.store, 0) == Some(Us)
    ensures |world.ledger.periods| == 1 && world.ledger.periods[0].dir == 0 && world.ledger.periods[0].fate == Abandoned
  {
    hide World.Sane, World.OnlyGit, World.HeldSince, LockIn;
    var reader, lock := PinnedUnderLock();
    world := reader.world;
    ghost var releasedAt, fate;
    var ok;
    ok, releasedAt, fate := reader.Release(Lease([], [], 0), lock);
    assert world.faults(3) && fate == Abandoned;
  }
}
