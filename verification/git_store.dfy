/** The stored state of one branch, the steps of other writers, and what every lock-respecting step keeps. */
module GitStore {
  import opened Wrappers
  import opened Strings
  import opened RefStorage

  type Ino = nat
  type DirId = nat

  datatype File = Regular(bytes: string) | Special

  /** Who created the branch's lock file: this reader, or another Git process. */
  datatype Owner = Us | Them(id: nat)

  /** A directory that can hold the branch's loose file and its lock file. */
  datatype Dir = Dir(loose: Option<Ino>, lock: Option<Owner>, removed: bool)

  /**
   `branchDir` is the directory that the path of the branch leads to at present;
   a pinned directory keeps its identity when the path leads elsewhere.
   */
  datatype Store = Store(
    files: map<Ino, File>,
    dirs: map<DirId, Dir>,
    branchDir: Option<DirId>,
    packed: Option<Ino>)

  function FileAt(s: Store, i: Ino): File
  {
    if i in s.files then s.files[i] else Special
  }

  function LooseIn(s: Store, d: DirId): Option<Ino>
  {
    if d in s.dirs then s.dirs[d].loose else None
  }

  function LockIn(s: Store, d: DirId): Option<Owner>
  {
    if d in s.dirs then s.dirs[d].lock else None
  }

  function CurrentLoose(s: Store): Option<Ino>
  {
    if s.branchDir.Some? then LooseIn(s, s.branchDir.value) else None
  }

  function HeadInLoose(f: File): Option<string>
  {
    if f.Regular? then ParseLoose(f.bytes) else None
  }

  function PackedHead(s: Store, ref: string): Option<string>
  {
    if s.packed.Some? && FileAt(s, s.packed.value).Regular?
    then ParsePacked(FileAt(s, s.packed.value).bytes, ref)
    else None
  }

  /** What the branch resolves to: its loose file shadows packed-refs. */
  function Head(s: Store, ref: string): Option<string>
  {
    if CurrentLoose(s).Some? then HeadInLoose(FileAt(s, CurrentLoose(s).value)) else PackedHead(s, ref)
  }

  lemma HeadIsSha(s: Store, ref: string)
    ensures Head(s, ref).Some? ==> IsSha(Head(s, ref).value)
  {
  }

  lemma HeadFromLoose(s: Store, d: DirId, ref: string, ino: Ino, bytes: string)
    requires s.branchDir == Some(d) && LooseIn(s, d) == Some(ino) && FileAt(s, ino) == Regular(bytes)
    ensures Head(s, ref) == ParseLoose(bytes)
  {
  }

  lemma HeadFromPacked(s: Store, d: DirId, ref: string, ino: Ino, bytes: string)
    requires s.branchDir == Some(d) && LooseIn(s, d) == None && s.packed == Some(ino) && FileAt(s, ino) == Regular(bytes)
    ensures Head(s, ref) == ParsePacked(bytes, ref)
  {
  }

  // ---------------------------------------------------------------- steps of other processes

  /** Steps of Git processes that take the per-ref lock before they change the branch. */
  datatype GitStep =
    | TakeLock(who: nat)
    | DropLock(who: nat)
    | CommitLoose(who: nat, sha: string, ino: Ino)
    | DeletePacked(who: nat, listing: Listing, ino: Ino)
    | UnlinkLoose(who: nat)
    | PruneLoose(who: nat)
    | Repack(listing: Listing, ino: Ino)
    | RemoveEmptyDirectory
    | MakeDirectory(dir: DirId)

  /** Any step of another process: a lock-respecting one, or an arbitrary change of everything stored. */
  datatype Step = Git(step: GitStep) | Arbitrary(store: Store)

  predicate HoldsLock(s: Store, owner: Owner)
  {
    s.branchDir.Some? && s.branchDir.value in s.dirs && s.dirs[s.branchDir.value].lock == Some(owner)
  }

  function WithDir(s: Store, dir: Dir): Store
    requires s.branchDir.Some?
  {
    s.(dirs := s.dirs[s.branchDir.value := dir])
  }

  /** When a Git process can take the step; otherwise it waits or fails and nothing changes. */
  predicate Enabled(s: Store, g: GitStep, ref: string)
  {
    match g
    case TakeLock(_) =>
      s.branchDir.Some? && s.branchDir.value in s.dirs && s.dirs[s.branchDir.value].lock == None &&
      !s.dirs[s.branchDir.value].removed
    case DropLock(who) => HoldsLock(s, Them(who))
    case CommitLoose(who, sha, ino) => HoldsLock(s, Them(who)) && IsSha(sha) && ino !in s.files
    case DeletePacked(who, listing, ino) =>
      HoldsLock(s, Them(who)) && IsListing(listing) && Lookup(listing.entries, ref) == [] && ino !in s.files
    case UnlinkLoose(who) => HoldsLock(s, Them(who))
    case PruneLoose(who) =>
      HoldsLock(s, Them(who)) && CurrentLoose(s).Some? &&
      HeadInLoose(FileAt(s, CurrentLoose(s).value)) == PackedHead(s, ref)
    case Repack(listing, ino) =>
      IsListing(listing) && ino !in s.files &&
      (CurrentLoose(s).None? ==> PackedEntry(listing, ref) == PackedHead(s, ref))
    case RemoveEmptyDirectory =>
      s.branchDir.Some? && s.branchDir.value in s.dirs &&
      s.dirs[s.branchDir.value].loose == None && s.dirs[s.branchDir.value].lock == None
    case MakeDirectory(dir) => s.branchDir == None && dir !in s.dirs
  }

  function Apply(s: Store, g: GitStep): Store
    requires g.MakeDirectory? || g.Repack? || (s.branchDir.Some? && s.branchDir.value in s.dirs)
  {
    match g
    case TakeLock(who) => WithDir(s, s.dirs[s.branchDir.value].(lock := Some(Them(who))))
    case DropLock(_) => WithDir(s, s.dirs[s.branchDir.value].(lock := None))
    case CommitLoose(_, sha, ino) =>
      WithDir(s, Dir(Some(ino), None, false)).(files := s.files[ino := Regular(LooseBytes(sha))])
    case DeletePacked(_, listing, ino) =>
      s.(files := s.files[ino := Regular(PackedBytes(listing))], packed := Some(ino))
    case UnlinkLoose(_) => WithDir(s, s.dirs[s.branchDir.value].(loose := None))
    case PruneLoose(_) => WithDir(s, s.dirs[s.branchDir.value].(loose := None))
    case Repack(listing, ino) =>
      s.(files := s.files[ino := Regular(PackedBytes(listing))], packed := Some(ino))
    case RemoveEmptyDirectory => WithDir(s, s.dirs[s.branchDir.value].(removed := true)).(branchDir := None)
    case MakeDirectory(dir) => s.(dirs := s.dirs[dir := Dir(None, None, false)], branchDir := Some(dir))
  }

  /** An open file outlives its name, so an arbitrary change never takes files away. */
  function Next(s: Store, step: Step, ref: string): Store
  {
    match step
    case Git(g) => if Enabled(s, g, ref) then Apply(s, g) else s
    case Arbitrary(t) => t.(files := s.files + t.files)
  }

  // ---------------------------------------------------------------- what lock-respecting steps keep

  /** Names lead to files that exist. */
  ghost predicate Sound(s: Store)
  {
    (s.packed.Some? ==> s.packed.value in s.files) &&
    (forall d | d in s.dirs && s.dirs[d].loose.Some? :: s.dirs[d].loose.value in s.files) &&
    (s.branchDir.Some? ==> s.branchDir.value in s.dirs && !s.dirs[s.branchDir.value].removed)
  }

  /** Files are never rewritten in place, and a directory leaves the path of the branch only by removal. */
  ghost predicate Kept(s: Store, t: Store)
  {
    (forall i | i in s.files :: i in t.files && t.files[i] == s.files[i]) &&
    (forall d | d in s.dirs && (s.dirs[d].removed || s.branchDir == Some(d)) ::
      d in t.dirs && (t.dirs[d].removed || t.branchDir == Some(d)))
  }

  /** The reader's lock file stands in the directory that the path of the branch leads to. */
  ghost predicate Locked(s: Store, d: DirId)
  {
    s.branchDir == Some(d) && d in s.dirs && s.dirs[d].lock == Some(Us)
  }

  lemma SoundKept(s: Store, g: GitStep, ref: string)
    requires Sound(s)
    ensures Sound(Next(s, Git(g), ref)) && Kept(s, Next(s, Git(g), ref))
  {
  }

  /** No lock of the reader stands in `t` that did not stand in `s`. */
  ghost predicate NoNewLock(s: Store, t: Store)
  {
    forall d {:trigger LockIn(t, d)} :: LockIn(t, d) == Some(Us) ==> LockIn(s, d) == Some(Us)
  }

  lemma NoForeignLock(s: Store, g: GitStep, ref: string)
    ensures NoNewLock(s, Next(s, Git(g), ref))
  {
  }

  /** Taking or dropping the lock and making the directory leave what the branch resolves to. */
  lemma PreparationKeepsHead(s: Store, g: GitStep, ref: string)
    requires g.TakeLock? || g.DropLock? || g.MakeDirectory?
    ensures Head(Next(s, Git(g), ref), ref) == Head(s, ref)
  {
  }

  lemma KeptTransitive(s: Store, t: Store, u: Store)
    requires Kept(s, t) && Kept(t, u)
    ensures Kept(s, u)
  {
  }

  /** No lock-respecting process moves a branch whose lock the reader holds: packed-refs may be rewritten, its head stays. */
  lemma LockHoldsHead(s: Store, g: GitStep, ref: string, d: DirId)
    requires Sound(s) && Locked(s, d) && IsRefName(ref)
    ensures Locked(Next(s, Git(g), ref), d)
    ensures LooseIn(Next(s, Git(g), ref), d) == LooseIn(s, d)
    ensures Head(Next(s, Git(g), ref), ref) == Head(s, ref)
  {
    if Enabled(s, g, ref) && g.Repack? {
      PackedRoundTrip(g.listing, ref);
    }
  }

  /** A committed loose file is what the branch resolves to, with or without a packed entry. */
  lemma CommitMovesHead(s: Store, who: nat, sha: string, ino: Ino, ref: string)
    requires Enabled(s, CommitLoose(who, sha, ino), ref)
    ensures Head(Next(s, Git(CommitLoose(who, sha, ino)), ref), ref) == Some(sha)
  {
    LooseRoundTrip(sha);
  }

  /** Without the reader's lock a lock-respecting process can move the branch. */
  lemma UnlockedHeadMoves(ref: string, from: string, to: string)
    requires IsRefName(ref) && IsSha(from) && IsSha(to) && from != to
    ensures exists s: Store, g: GitStep :: Sound(s) && Head(s, ref) == Some(from) && Head(Next(s, Git(g), ref), ref) == Some(to)
  {
    hide Head;
    var s := Store(map[0 := Regular(LooseBytes(from))], map[0 := Dir(Some(0), Some(Them(0)), false)], Some(0), None);
    LooseRoundTrip(from);
    HeadFromLoose(s, 0, ref, 0, LooseBytes(from));
    CommitMovesHead(s, 0, to, 1, ref);
    assert Sound(s) && Head(s, ref) == Some(from) && Head(Next(s, Git(CommitLoose(0, to, 1)), ref), ref) == Some(to);
  }
}
