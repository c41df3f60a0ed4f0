/** Publication of an exact candidate: preflight, verified recovery bundle, leased push, and an outcome decided by readback alone. */
module Publisher {
  import opened Wrappers
  import opened Strings
  import opened RefStorage
  import opened GitStore
  import opened SystemCalls
  import opened StableReader

  datatype Publication = AlreadyPublished | Published(head: string)

  datatype Request = Request(expected: string, candidate: string)

  /** Evidence of one readback; for a remote server, the index at which the branch was read. */
  datatype Readback = Local(trail: Trail) | Remote(readAt: nat)
  {
    /** The readback lies after index `after` and supports `head`. */
    ghost predicate Supports(h: seq<Store>, after: nat, ref: string, head: string, onlyGit: bool)
    {
      match this
      case Local(trail) =>
        trail.Supports(h, ref, head) && after <= trail.lockedAt && (onlyGit ==> trail.Stable(h, ref, head))
      case Remote(readAt) => after <= readAt < |h| && Head(h[readAt], ref) == Some(head)
    }
  }

  lemma SupportsLater(h: seq<Store>, later: seq<Store>, readback: Readback, after: nat, ref: string,
                      r: Result<Reading, Error>, onlyGit: bool)
    requires h <= later
    ensures r.Success? && readback.Supports(h, after, ref, r.value.head, onlyGit) ==>
      readback.Supports(later, after, ref, r.value.head, onlyGit)
  {
    if r.Success? && readback.Local? {
      TrailLater(h, later, readback.trail, r, ref);
    }
  }

  /** The effects that put bundle `id` into its place: written, verified, advertising `head`, moved. */
  ghost function Bundling(id: nat, head: Option<string>): seq<Effect>
  {
    [Created(id), Verified(id), Listed(id, head), Placed(id)]
  }

  /** The effects of one publication: part of a bundling, or all of one for the candidate, and then at most one push. */
  ghost predicate Allowed(effects: seq<Effect>, q: Request, id: nat, head: Option<string>)
  {
    effects <= Bundling(id, head) ||
    (|effects| == 5 && effects[..4] == Bundling(id, Some(q.candidate)) && effects[4].PushOf(q.expected, q.candidate))
  }

  /** The push among the effects of one publication. */
  ghost function Push(effects: seq<Effect>): Option<Effect>
  {
    if |effects| == 5 then Some(effects[4]) else None
  }

  lemma OnlyPush(effects: seq<Effect>, q: Request, id: nat, head: Option<string>)
    requires Allowed(effects, q, id, head)
    ensures forall i | 0 <= i < |effects| && effects[i].Pushed? :: i == 4 && Push(effects) == Some(effects[i])
  {
    if !(effects <= Bundling(id, head)) {
      assert forall i | 0 <= i < 4 :: effects[i] == effects[..4][i];
    }
  }

  /** Whatever moves the branch during a publication is another process, or the one push behind the verified bundle. */
  lemma MovesAreFenced(world: World, h0: seq<Store>, log0: seq<Effect>, q: Request, id: nat, head: Option<string>)
    requires world.Valid() && h0 != [] && log0 <= world.ledger.log
    requires forall i | 0 <= i < |log0| && log0[i].Pushed? :: log0[i].endedAt < |h0|
    requires Allowed(world.ledger.log[|log0|..], q, id, head)
    ensures world.OnlyMoves(world.history, |h0|, Push(world.ledger.log[|log0|..]))
  {
    var effects := world.ledger.log[|log0|..];
    OnlyPush(effects, q, id, head);
    forall i | |log0| <= i < |world.ledger.log| && world.ledger.log[i].Pushed?
      ensures Push(effects) == Some(world.ledger.log[i])
    {
      assert world.ledger.log[i] == effects[i - |log0|];
    }
    world.MovesAccounted(world.history, world.ledger.log, world.ledger.periods, |h0|, |log0|, Push(effects));
  }

  class Publisher {
    const world: World
    const local: bool
    const ancestor: (string, string) -> bool
    const revision: nat -> string

    constructor (world: World, local: bool, ancestor: (string, string) -> bool, revision: nat -> string)
      ensures this.world == world && this.local == local && this.ancestor == ancestor && this.revision == revision
    {
      this.world, this.local, this.ancestor, this.revision := world, local, ancestor, revision;
    }

    /** Nothing interferes, the branch has a head, its lock can be taken, and `git ls-remote` tells that head. */
    ghost predicate Reachable()
      reads world
    {
      world.Calm() && world.Candid() && world.store.branchDir.Some? &&
      world.Lockable(world.store, world.store.branchDir.value) && Head(world.store, world.ref).Some?
    }

    /** The local repository always has the candidate checked out, and the candidate descends from the expected head. */
    ghost predicate Fits(q: Request)
    {
      ancestor(q.expected, q.candidate) && forall n: nat {:trigger revision(n)} :: revision(n) == q.candidate
    }

    /** A push can commit, whenever it comes, and whatever exit code it reports. */
    ghost predicate Committing()
      reads world
    {
      forall n: nat {:trigger world.commits(n)} :: world.commits(n).Some? && world.commits(n).value !in world.store.files
    }

    /** Nothing is in the way of a publication: the branch is at the expected head, and the bundle can be made and placed. */
    ghost predicate Publishable(q: Request)
      reads world, world.ledger
    {
      Reachable() && Fits(q) && Committing() && Head(world.store, world.ref) == Some(q.expected) && q.expected != q.candidate &&
      world.ledger.bundle == None && world.ledger.temporary == None && Advertising(q)
    }

    ghost predicate Advertising(q: Request)
    {
      forall n: nat {:trigger world.advertised(n)} :: world.advertised(n) == Some(q.candidate)
    }

    /** A check that raises `PublicationError` unless it finds what is wanted. */
    method Require() returns (r: Result<(), Error>)
      requires world.Valid()
      modifies world`clock, world`store, world`history
      ensures world.Valid() && world.Advanced()
      ensures world.Calm() ==> world.store == old(world.store) && r.Success?
    {
      hide World.Sane;
      var found := world.Query();
      r := if found == Some(true) then Success(()) else Failure(if found.None? then RawOsError else PublicationError);
    }

    /** The facts that preflight and bundling both ask of the local repository. */
    method RequireFastForward(q: Request) returns (r: Result<(), Error>)
      requires world.Valid()
      modifies world`clock, world`store, world`history
      ensures world.Valid() && world.Advanced()
      ensures r.Success? ==> ancestor(q.expected, q.candidate)
      ensures world.Calm() ==> world.store == old(world.store) && (Fits(q) ==> r.Success?)
    {
      hide World.Sane;
      r := Require();
      if r.Failure? {
        return;
      }
      if revision(world.clock) != q.candidate {
        return Failure(PublicationError);
      }
      r := Require();
      if r.Success? && !ancestor(q.expected, q.candidate) {
        r := Failure(PublicationError);
      }
    }

    /** Reads the branch of a local endpoint back through the stable reader. */
    method ReadLocal(q: Request, lent: bool) returns (r: Result<Reading, Error>, ghost readback: Readback)
      requires world.Valid() && world.ledger.hold == None
      modifies world, world.ledger`hold, world.ledger`periods, world.ledger`judged
      ensures world.Valid() && world.Advanced() && world.ledger.hold == None && world.Tidy(old(world.open), r == Failure(RawOsError))
      ensures r.Success? ==>
        r.value.Classified(Some((q.expected, q.candidate))) && world.failed == old(world.failed) &&
        readback.Supports(world.history, |old(world.history)| - 1, world.ref, r.value.head, world.OnlyGit())
      ensures readback.Local? && readback.trail.Released(r)
      ensures world.ledger.periods == old(world.ledger.periods) + readback.trail.Periods()
      ensures old(Reachable()) ==> r.Success? && Some(r.value.head) == Head(old(world.store), world.ref) && world.store == old(world.store)
    {
      hide World.Sane, World.OnlyGit, Trail.Supports, Trail.Stable, World.Lockable, Head;
      var reader := new Reader(world);
      ghost var trail;
      r, trail := reader.StableHead(lent, Some((q.expected, q.candidate)));
      readback := Local(trail);
    }

    /** The head of the branch on a remote server. */
    method ReadServerHead() returns (r: Result<string, Error>, ghost readAt: nat)
      requires world.Valid()
      modifies world`clock, world`store, world`history
      ensures world.Valid() && world.Advanced()
      ensures |old(world.history)| <= readAt + 1 && readAt < |world.history|
      ensures r.Success? ==> Head(world.history[readAt], world.ref) == Some(r.value)
      ensures world.Calm() ==>
        world.store == old(world.store) &&
        (Head(world.store, world.ref).Some? ==> r == Success(Head(world.store, world.ref).value))
    {
      hide World.Sane, Head;
      var endpoint := Require();
      if endpoint.Failure? {
        return Failure(endpoint.error), world.Now();
      }
      var head;
      head, readAt := world.ReadRemote();
      r := if head.None? then Failure(PublicationError) else Success(head.value);
    }

    /** Reads the branch of a remote server back. */
    method ReadServer(q: Request) returns (r: Result<Reading, Error>, ghost readback: Readback)
      requires world.Valid()
      modifies world`clock, world`store, world`history
      ensures world.Valid() && world.Advanced()
      ensures r.Success? ==>
        readback.Remote? && |old(world.history)| <= readback.readAt + 1 && readback.readAt < |world.history| &&
        Head(world.history[readback.readAt], world.ref) == Some(r.value.head) &&
        r.value.Classified(Some((q.expected, q.candidate)))
      ensures world.Calm() && Head(old(world.store), world.ref).Some? ==>
        r.Success? && Some(r.value.head) == Head(old(world.store), world.ref) && world.store == old(world.store)
    {
      hide World.Sane, Head;
      var head;
      ghost var readAt;
      head, readAt := ReadServerHead();
      readback := Remote(readAt);
      r := if head.Failure? then Failure(head.error)
           else Success(Reading(head.value, Some(Classify(head.value, q.expected, q.candidate))));
    }

    /** Reads the branch back and classifies it: through the stable reader when the endpoint is local. */
    method ReadHead(q: Request, lent: bool) returns (r: Result<Reading, Error>, ghost readback: Readback)
      requires world.Valid() && world.ledger.hold == None
      modifies world, world.ledger`hold, world.ledger`periods, world.ledger`judged
      ensures world.Valid() && world.Advanced() && world.ledger.hold == None && world.Tidy(old(world.open), r == Failure(RawOsError))
      ensures r.Success? ==>
        r.value.Classified(Some((q.expected, q.candidate))) && readback.Local? == local && world.failed == old(world.failed) &&
        readback.Supports(world.history, |old(world.history)| - 1, world.ref, r.value.head, world.OnlyGit())
      ensures old(Reachable()) ==> r.Success? && Some(r.value.head) == Head(old(world.store), world.ref) && world.store == old(world.store)
    {
      hide World.Sane, World.OnlyGit, Trail.Supports, Trail.Stable, World.Lockable, Head;
      if local {
        r, readback := ReadLocal(q, lent);
      } else {
        r, readback := ReadServer(q);
      }
    }

    /**
     Everything that must hold before anything is written; the branch is at the expected head or already at the
     candidate. No bundle is touched, nothing is pushed, and no step of its own moves the branch.
     */
    method Preflight(q: Request) returns (r: Result<Classification, Error>, ghost readback: Readback)
      requires world.Valid() && world.ledger.hold == None
      modifies world, world.ledger`hold, world.ledger`periods, world.ledger`judged
      ensures world.Valid() && world.Advanced() && world.ledger.hold == None && world.Tidy(old(world.open), r == Failure(RawOsError))
      ensures r.Success? ==> ancestor(q.expected, q.candidate) && r.value != REMOTE_HEAD_DRIFT && world.failed == old(world.failed)
      ensures r.Success? ==>
        var head := if r.value == PUBLISHED then q.candidate else q.expected;
        readback.Supports(world.history, |old(world.history)| - 1, world.ref, head, world.OnlyGit())
      ensures world.OnlyMoves(world.history, |old(world.history)|, None)
      ensures old(Reachable()) && Fits(q) && Head(old(world.store), world.ref).value in {q.expected, q.candidate} ==>
        world.store == old(world.store) && r == Success(Classify(Head(old(world.store), world.ref).value, q.expected, q.candidate))
    {
      hide World.Sane, World.OnlyGit, Readback.Supports, World.Lockable, Head, Reachable, Fits;
      world.PushesOver();
      r, readback := CheckAndRead(q);
      OwnStepsKeepHead(old(world.history), old(world.ledger.log));
    }

    /** Reading and checking add no effect, so every move of the branch meanwhile is another process's. */
    lemma OwnStepsKeepHead(h0: seq<Store>, log0: seq<Effect>)
      requires world.Valid() && h0 != [] && world.ledger.log == log0
      requires forall i | 0 <= i < |log0| && log0[i].Pushed? :: log0[i].endedAt < |h0|
      ensures world.OnlyMoves(world.history, |h0|, None)
    {
      world.MovesAccounted(world.history, world.ledger.log, world.ledger.periods, |h0|, |log0|, None);
    }

    /** The checks of preflight, in order, and the readback at its end. */
    method CheckAndRead(q: Request) returns (r: Result<Classification, Error>, ghost readback: Readback)
      requires world.Valid() && world.ledger.hold == None
      modifies world, world.ledger`hold, world.ledger`periods, world.ledger`judged
      ensures world.Valid() && world.Advanced() && world.ledger.hold == None && world.Tidy(old(world.open), r == Failure(RawOsError))
      ensures r.Success? ==> ancestor(q.expected, q.candidate) && r.value != REMOTE_HEAD_DRIFT && world.failed == old(world.failed)
      ensures r.Success? ==>
        var head := if r.value == PUBLISHED then q.candidate else q.expected;
        readback.Supports(world.history, |old(world.history)| - 1, world.ref, head, world.OnlyGit())
      ensures old(Reachable()) && Fits(q) && Head(old(world.store), world.ref).value in {q.expected, q.candidate} ==>
        world.store == old(world.store) && r == Success(Classify(Head(old(world.store), world.ref).value, q.expected, q.candidate))
    {
      hide World.Sane, World.OnlyGit, World.Lockable, Head, Fits, Trail.Supports, Trail.Stable;
      readback := Remote(0);
      var checked := CheckRepository(q);
      if checked.Failure? {
        return Failure(checked.error), readback;
      }
      var reading;
      ghost var start := world.Now();
      reading, readback := ReadHead(q, false);
      if reading.Failure? {
        return Failure(reading.error), readback;
      }
      var state := reading.value.state.value;
      SupportsEarlier(world.history, readback, |old(world.history)| - 1, start, world.ref, reading.value.head, world.OnlyGit());
      r := if state == REMOTE_HEAD_DRIFT then Failure(PublicationError) else Success(state);
    }

    /** The checks of the local repository that preflight makes. */
    method CheckRepository(q: Request) returns (r: Result<(), Error>)
      requires world.Valid()
      modifies world`clock, world`store, world`history
      ensures world.Valid() && world.Advanced()
      ensures r.Success? ==> ancestor(q.expected, q.candidate)
      ensures world.Calm() ==> world.store == old(world.store) && (Fits(q) ==> r.Success?)
    {
      hide World.Sane, Fits;
      r := Require();
      if r.Failure? {
        return;
      }
      r := RequireFastForward(q);
      if r.Failure? {
        return;
      }
      r := Require();
    }

    /**
     Builds the bundle beside its final place, verifies it there, and only then moves it into place. On failure the
     bundle in place is untouched, and the temporary file is left only when its removal fails.
     */
    method CreateBundle(q: Request) returns (r: Result<(), Error>, ghost id: nat, ghost head: Option<string>)
      requires world.Valid()
      modifies world`clock, world`store, world`history, world.ledger`temporary, world.ledger`bundle, world.ledger`log
      ensures world.Valid() && world.Advanced()
      ensures old(world.ledger.log) <= world.ledger.log
      ensures world.ledger.log[|old(world.ledger.log)|..] <= Bundling(id, head)
      ensures r.Success? ==>
        ancestor(q.expected, q.candidate) && head == Some(q.candidate) && old(world.ledger.bundle) == None &&
        world.ledger.bundle == Some(id) && world.ledger.log == old(world.ledger.log) + Bundling(id, head)
      ensures r.Failure? ==> world.ledger.bundle == old(world.ledger.bundle)
      ensures world.ledger.temporary == old(world.ledger.temporary) || r == Failure(RawOsError)
      ensures world.Calm() && Fits(q) && Advertising(q) && old(world.ledger.bundle.None? && world.ledger.temporary.None?) ==>
        world.store == old(world.store) && r.Success?
    {
      hide World.Sane, Fits, Advertising;
      id, head := 0, None;
      r := RequireFastForward(q);
      if r.Failure? {
        return;
      }
      r := Require();
      if r.Failure? {
        return;
      }
      if world.ledger.bundle.Some? || world.ledger.temporary.Some? {
        r := Failure(PublicationError);
        return;
      }
      r, id, head := FillBundle(q);
      if world.ledger.temporary.Some? {
        var removed := world.DropTemporary();
        if !removed {
          r := Failure(RawOsError);
        }
      }
    }

    /** The protected part of bundling: create, verify, compare the advertised head, digest, move into place. */
    method FillBundle(q: Request) returns (r: Result<(), Error>, ghost id: nat, ghost head: Option<string>)
      requires world.Valid() && world.ledger.temporary == None
      modifies world`clock, world`store, world`history, world.ledger`temporary, world.ledger`bundle, world.ledger`log
      ensures world.Valid() && world.Advanced()
      ensures old(world.ledger.log) <= world.ledger.log
      ensures world.ledger.log[|old(world.ledger.log)|..] <= Bundling(id, head)
      ensures r.Success? ==>
        head == Some(q.candidate) && world.ledger.bundle == Some(id) && world.ledger.temporary == None &&
        world.ledger.log == old(world.ledger.log) + Bundling(id, head)
      ensures r.Failure? ==> world.ledger.bundle == old(world.ledger.bundle)
      ensures world.Calm() && Advertising(q) ==> world.store == old(world.store) && r.Success?
    {
      hide World.Sane;
      id, head := 0, None;
      var created := world.CreateBundle();
      if created != Some(true) {
        r := Fails(created);
        return;
      }
      id := world.ledger.temporary.value;
      var verified := world.VerifyBundle();
      if verified != Some(true) {
        r := Fails(verified);
        return;
      }
      var listed, advertised := world.ListHeads();
      if listed != Some(true) {
        r := Fails(listed);
        return;
      }
      head := advertised;
      if advertised != Some(q.candidate) {
        r := Failure(PublicationError);
        return;
      }
      r := DigestAndPlace();
    }

    /** The failure behind an answer other than yes. */
    function Fails(found: Option<bool>): (r: Result<(), Error>)
      ensures r.Failure? && (r.error == RawOsError <==> found == None)
    {
      Failure(if found.None? then RawOsError else PublicationError)
    }

    method DigestAndPlace() returns (r: Result<(), Error>)
      requires world.Valid() && world.ledger.temporary.Some?
      modifies world`clock, world`store, world`history, world.ledger`temporary, world.ledger`bundle, world.ledger`log
      ensures world.Valid() && world.Advanced()
      ensures r.Success? ==>
        world.ledger.bundle == old(world.ledger.temporary) && world.ledger.temporary == None &&
        world.ledger.log == old(world.ledger.log) + [Placed(world.ledger.bundle.value)]
      ensures r.Failure? ==>
        world.ledger.bundle == old(world.ledger.bundle) && world.ledger.log == old(world.ledger.log)
      ensures world.Calm() ==> world.store == old(world.store) && r.Success?
    {
      hide World.Sane;
      var digest := world.Query();
      if digest.None? {
        return Failure(RawOsError);
      }
      var placed := world.PlaceBundle();
      r := if placed then Success(()) else Failure(RawOsError);
    }

    /** Opens the two repository handles through which a local push and its readback go. */
    method PinEndpoint() returns (r: Result<seq<Fd>, Error>)
      requires world.Valid()
      modifies world
      ensures world.Valid() && world.Advanced() && (r.Success? ==> world.failed == old(world.failed))
      ensures if r.Success? then Leased(r.value, old(world.open), world.open) else world.open == old(world.open)
      ensures world.Calm() ==> world.store == old(world.store) && r.Success?
    {
      hide World.Sane;
      if !local {
        return Success([]);
      }
      var reader := new Reader(world);
      r := reader.OpenHandles();
    }

    /** At most one push was added to the record, as requested. */
    ghost predicate OnePush(log0: seq<Effect>, log: seq<Effect>, q: Request)
    {
      log == log0 || (|log| == |log0| + 1 && log0 <= log && log[|log0|].PushOf(q.expected, q.candidate))
    }

    /** The reading was made after the push that the record gained, is classified, and rests on the readback. */
    ghost predicate ReadAfter(log0: seq<Effect>, log: seq<Effect>, h: seq<Store>, q: Request, reading: Reading, readback: Readback)
    {
      |log0| < |log| && log[|log0|].Pushed? && reading.Classified(Some((q.expected, q.candidate))) && readback.Local? == local &&
      readback.Supports(h, log[|log0|].endedAt, world.ref, reading.head, world.OnlyGit())
    }

    /** The push and the readback after it; a failure between them still leaves the push on record. */
    method PushThenRead(q: Request) returns (r: Result<Reading, Error>, ghost readback: Readback)
      requires world.Valid() && world.ledger.hold == None && IsSha(q.candidate)
      modifies world, world.ledger`hold, world.ledger`periods, world.ledger`judged, world.ledger`log
      ensures world.Valid() && world.Advanced() && world.ledger.hold == None && world.Tidy(old(world.open), r == Failure(RawOsError))
      ensures OnePush(old(world.ledger.log), world.ledger.log, q)
      ensures r.Success? ==>
        ReadAfter(old(world.ledger.log), world.ledger.log, world.history, q, r.value, readback) && world.failed == old(world.failed)
      ensures old(Reachable() && Committing() && Head(world.store, world.ref) == Some(q.expected)) ==>
        r.Success? && r.value.head == q.candidate
    {
      hide World.Sane, World.OnlyGit, Trail.Supports, Trail.Stable, World.Candid, Head;
      readback := Remote(0);
      var identity := Require();
      if identity.Failure? {
        return Failure(identity.error), readback;
      }
      var _ := world.Push(q.expected, q.candidate);
      ghost var pushedAt := world.Now();
      identity := Require();
      if identity.Failure? {
        return Failure(identity.error), readback;
      }
      ghost var start := world.Now();
      r, readback := ReadHead(q, true);
      if r.Success? {
        SupportsEarlier(world.history, readback, pushedAt, start, world.ref, r.value.head, world.OnlyGit());
      }
    }

    lemma SupportsEarlier(h: seq<Store>, readback: Readback, from: nat, start: nat, ref: string, head: string, onlyGit: bool)
      requires from <= start && readback.Supports(h, start, ref, head, onlyGit)
      ensures readback.Supports(h, from, ref, head, onlyGit)
    {
    }

    /**
     `PushThenRead` between opening the endpoint and closing it again, in every case. A reading that was made is the
     result, unless closing the endpoint fails.
     */
    method PushAndRead(q: Request) returns (r: Result<Reading, Error>, ghost reading: Option<Reading>, ghost readback: Readback)
      requires world.Valid() && world.ledger.hold == None && IsSha(q.candidate)
      modifies world, world.ledger`hold, world.ledger`periods, world.ledger`judged, world.ledger`log
      ensures world.Valid() && world.Advanced() && world.ledger.hold == None && world.Tidy(old(world.open), r == Failure(RawOsError))
      ensures OnePush(old(world.ledger.log), world.ledger.log, q)
      ensures reading.Some? ==> ReadAfter(old(world.ledger.log), world.ledger.log, world.history, q, reading.value, readback)
      ensures r.Success? <==> reading.Some? && world.failed == old(world.failed)
      ensures r.Success? ==> reading == Some(r.value)
      ensures old(Reachable() && Committing() && Head(world.store, world.ref) == Some(q.expected)) ==>
        r.Success? && r.value.head == q.candidate
    {
      hide World.Sane, World.OnlyGit, World.Lockable, World.Candid, Head, ReadAfter, Readback.Supports;
      readback, reading := Remote(0), None;
      var handles := PinEndpoint();
      if handles.Failure? {
        return Failure(handles.error), None, readback;
      }
      assert old(Reachable() && Committing()) ==> Reachable() && Committing();
      r, readback := PushThenRead(q);
      ghost var read := world.history;
      var closed := world.CloseAll(handles.value);
      if r.Success? {
        reading := Some(r.value);
        ReadAfterLater(old(world.ledger.log), world.ledger.log, read, world.history, q, r.value, readback);
      }
      if !closed {
        r := Failure(RawOsError);
      }
    }

    lemma ReadAfterLater(log0: seq<Effect>, log: seq<Effect>, h: seq<Store>, later: seq<Store>, q: Request, reading: Reading, readback: Readback)
      requires h <= later && ReadAfter(log0, log, h, q, reading, readback)
      ensures ReadAfter(log0, log, later, q, reading, readback)
    {
      SupportsLater(h, later, readback, log[|log0|].endedAt, world.ref, Success(reading), world.OnlyGit());
    }

    /** The reading after the push among these effects says that the branch is at the candidate, or at what else. */
    ghost predicate Found(effects: seq<Effect>, h: seq<Store>, q: Request, reading: Reading, readback: Readback)
    {
      Push(effects).Some? && Push(effects).value.Pushed? && reading.Classified(Some((q.expected, q.candidate))) && readback.Local? == local &&
      readback.Supports(h, Push(effects).value.endedAt, world.ref, reading.head, world.OnlyGit())
    }

    /**
     The writing part of a publication: bundle, push, and an outcome that the reading after the push decides alone,
     unless a close fails.
     */
    method BundleAndPush(q: Request)
      returns (r: Result<Publication, Error>, ghost id: nat, ghost head: Option<string>, ghost reading: Option<Reading>,
               ghost readback: Readback)
      requires world.Valid() && world.ledger.hold == None && IsSha(q.candidate)
      modifies world, world.ledger
      ensures world.Valid() && world.Advanced() && world.ledger.hold == None && world.Tidy(old(world.open), r == Failure(RawOsError))
      ensures old(world.ledger.log) <= world.ledger.log
      ensures Allowed(world.ledger.log[|old(world.ledger.log)|..], q, id, head)
      ensures Push(world.ledger.log[|old(world.ledger.log)|..]).Some? ==>
        ancestor(q.expected, q.candidate) && world.ledger.bundle == Some(id)
      ensures reading.Some? ==> Found(world.ledger.log[|old(world.ledger.log)|..], world.history, q, reading.value, readback)
      ensures r.Success? <==> reading.Some? && reading.value.state == Some(PUBLISHED) && world.failed == old(world.failed)
      ensures r.Success? ==> r == Success(Published(q.candidate))
      ensures old(Publishable(q)) ==> r.Success?
    {
      hide World.Sane, World.OnlyGit, World.Lockable, World.Candid, Head, Fits, Advertising, ReadAfter, Found;
      readback, reading := Remote(0), None;
      var made;
      made, id, head := CreateBundle(q);
      if made.Failure? {
        return Failure(made.error), id, head, None, readback;
      }
      ghost var bundled := world.ledger.log;
      var endpoint := Require();
      if endpoint.Failure? {
        return Failure(endpoint.error), id, head, None, readback;
      }
      assert old(Publishable(q)) ==> Reachable() && Committing();
      var answer;
      answer, reading, readback := PushAndRead(q);
      BundledPush(old(world.ledger.log), bundled, world.ledger.log, q, id);
      if reading.Some? {
        FoundAfter(old(world.ledger.log), bundled, world.ledger.log, world.history, q, reading.value, readback);
      }
      r := if answer.Failure? then Failure(answer.error)
           else if answer.value.state == Some(PUBLISHED) then Success(Published(answer.value.head))
           else Failure(PublicationError);
    }

    lemma FoundAfter(log0: seq<Effect>, bundled: seq<Effect>, log: seq<Effect>, h: seq<Store>, q: Request, reading: Reading, readback: Readback)
      requires log0 <= log && ReadAfter(bundled, log, h, q, reading, readback)
      requires Push(log[|log0|..]) == if log == bundled then None else Some(log[|bundled|])
      ensures Found(log[|log0|..], h, q, reading, readback) && reading.Classified(Some((q.expected, q.candidate)))
    {
    }

    lemma BundledPush(log0: seq<Effect>, bundled: seq<Effect>, log: seq<Effect>, q: Request, id: nat)
      requires bundled == log0 + Bundling(id, Some(q.candidate)) && OnePush(bundled, log, q)
      ensures log0 <= log && Allowed(log[|log0|..], q, id, Some(q.candidate))
      ensures Push(log[|log0|..]) == if log == bundled then None else Some(log[|bundled|])
    {
      if log == bundled {
        assert log[|log0|..] == Bundling(id, Some(q.candidate));
      } else {
        assert log[..|bundled|] == bundled;
        assert log[|log0|..] == Bundling(id, Some(q.candidate)) + [log[|bundled|]];
      }
    }

    /** The request that the two texts make, when both are SHAs. */
    function Requested(expected: string, candidate: string): Option<Request>
    {
      if ParseSha(expected).Some? && ParseSha(candidate).Some?
      then Some(Request(ParseSha(expected).value, ParseSha(candidate).value))
      else None
    }

    /** What the effects of a publication and the readback at its end allow as its outcome. */
    ghost predicate Decided(effects: seq<Effect>, h0: seq<Store>, h: seq<Store>, q: Request, r: Result<Publication, Error>,
                            reading: Option<Reading>, readback: Readback)
    {
      h0 != [] && (reading.Some? ==> Found(effects, h, q, reading.value, readback)) &&
      match r
      case Failure(_) => true
      case Success(AlreadyPublished) =>
        effects == [] && reading == None && readback.Supports(h, |h0| - 1, world.ref, q.candidate, world.OnlyGit())
      case Success(Published(head)) => head == q.candidate && reading.Some? && reading.value.state == Some(PUBLISHED)
    }

    /**
     Publishes the candidate over the expected head, or finds it published already. Every other final head of the
     branch is an error, and the exit code of the push decides nothing: once the branch was read after the push, that
     reading alone decides, unless a close fails. During the whole publication the branch is moved by other processes,
     or once by the push, from the expected head to its descendant behind the bundle.
     */
    method Publish(expected: string, candidate: string)
      returns (r: Result<Publication, Error>, ghost id: nat, ghost head: Option<string>, ghost reading: Option<Reading>,
               ghost readback: Readback)
      requires world.Valid() && world.ledger.hold == None
      modifies world, world.ledger
      ensures world.Valid() && world.Advanced() && world.ledger.hold == None && world.Tidy(old(world.open), r == Failure(RawOsError))
      ensures old(world.ledger.log) <= world.ledger.log
      ensures Requested(expected, candidate) == None ==> r.Failure? && world.ledger.log == old(world.ledger.log)
      ensures Requested(expected, candidate).Some? ==>
        var q, effects := Requested(expected, candidate).value, world.ledger.log[|old(world.ledger.log)|..];
        Allowed(effects, q, id, head) && world.OnlyMoves(world.history, |old(world.history)|, Push(effects)) &&
        (Push(effects).Some? ==> ancestor(q.expected, q.candidate) && world.ledger.bundle == Some(id)) &&
        Decided(effects, old(world.history), world.history, q, r, reading, readback)
      ensures reading.Some? ==> (r.Success? <==> reading.value.state == Some(PUBLISHED) && world.failed == old(world.failed))
      ensures r == Success(AlreadyPublished) ==> world.ledger.bundle == old(world.ledger.bundle)
      ensures Requested(expected, candidate).Some? ==>
        var q := Requested(expected, candidate).value;
        (old(Publishable(q)) ==> r == Success(Published(q.candidate))) &&
        (old(Reachable()) && Fits(q) && Head(old(world.store), world.ref) == Some(q.candidate) ==> r == Success(AlreadyPublished))
    {
      hide World.Sane, World.OnlyGit, World.Lockable, World.Candid, Head, Fits, Advertising, Decided, Publishable, Reachable;
      id, head, reading, readback := 0, None, None, Remote(0);
      var request := Requested(expected, candidate);
      if request.None? {
        r := Failure(PublicationError);
        return;
      }
      var q := request.value;
      world.PushesOver();
      r, id, head, reading, readback := PublishRequest(q);
      MovesAreFenced(world, old(world.history), old(world.ledger.log), q, id, head);
    }

    /** Preflight, and what it allows. */
    method PublishRequest(q: Request)
      returns (r: Result<Publication, Error>, ghost id: nat, ghost head: Option<string>, ghost reading: Option<Reading>,
               ghost readback: Readback)
      requires world.Valid() && world.ledger.hold == None && IsSha(q.candidate)
      modifies world, world.ledger
      ensures world.Valid() && world.Advanced() && world.ledger.hold == None && world.Tidy(old(world.open), r == Failure(RawOsError))
      ensures old(world.ledger.log) <= world.ledger.log
      ensures Allowed(world.ledger.log[|old(world.ledger.log)|..], q, id, head)
      ensures Push(world.ledger.log[|old(world.ledger.log)|..]).Some? ==>
        ancestor(q.expected, q.candidate) && world.ledger.bundle == Some(id)
      ensures Decided(world.ledger.log[|old(world.ledger.log)|..], old(world.history), world.history, q, r, reading, readback)
      ensures reading.Some? ==> (r.Success? <==> reading.value.state == Some(PUBLISHED) && world.failed == old(world.failed))
      ensures r == Success(AlreadyPublished) ==> world.ledger.bundle == old(world.ledger.bundle)
      ensures old(Publishable(q)) ==> r == Success(Published(q.candidate))
      ensures old(Reachable()) && Fits(q) && Head(old(world.store), world.ref) == Some(q.candidate) ==> r == Success(AlreadyPublished)
    {
      hide World.Sane, World.OnlyGit, World.Lockable, World.Candid, Head, Fits, Advertising, Found, Readback.Supports;
      id, head, reading := 0, None, None;
      var state;
      state, readback := Preflight(q);
      if state.Failure? {
        return Failure(state.error), id, head, None, readback;
      }
      if state.value == PUBLISHED {
        return Success(AlreadyPublished), id, head, None, readback;
      }
      assert old(Publishable(q)) ==> Publishable(q);
      r, id, head, reading, readback := BundleAndPush(q);
    }
  }
}
