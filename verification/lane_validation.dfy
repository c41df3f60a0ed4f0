/** The whole validation of a lane plan, and what an accepted plan guarantees. */
module LaneValidation {
  import opened LaneGraph
  import opened PathGlobs
  import opened LanePlanner

  // ---------------------------------------------------------------- branch and worktree identities

  /** The lanes that use an identity, in order. */
  ghost function Users(lanes: seq<Lane>, coordinate: Coordinate, identity: string): seq<Id>
  {
    if lanes == [] then [] else
      var n := |lanes| - 1;
      Users(lanes[..n], coordinate, identity) +
      if IdentityOk(lanes[n], coordinate) && FieldOf(lanes[n], coordinate).value == identity then [Display(lanes[n])] else []
  }

  ghost predicate NotShared(lanes: seq<Lane>, coordinate: Coordinate)
  {
    forall s {:trigger Users(lanes, coordinate, s)} :: |Users(lanes, coordinate, s)| <= 1
  }

  lemma {:induction false} UsersCount(lanes: seq<Lane>, coordinate: Coordinate, i: nat, n: nat)
    requires i < n <= |lanes| && IdentityOk(lanes[i], coordinate)
    ensures |Users(lanes[..n], coordinate, FieldOf(lanes[i], coordinate).value)| >= 1
  {
    assert lanes[..n][..n - 1] == lanes[..n - 1];
    if i < n - 1 {
      UsersCount(lanes, coordinate, i, n - 1);
    }
  }

  lemma {:induction false} UsersGrow(lanes: seq<Lane>, coordinate: Coordinate, s: string, n: nat)
    requires n <= |lanes|
    ensures |Users(lanes[..n], coordinate, s)| <= |Users(lanes, coordinate, s)|
    decreases |lanes| - n
  {
    if n < |lanes| {
      UsersGrow(lanes, coordinate, s, n + 1);
      assert lanes[..n + 1][..n] == lanes[..n];
    } else {
      assert lanes[..n] == lanes;
    }
  }

  /** What it means for the lanes: two lanes never have the same valid identity. */
  lemma NotSharedMeansDistinct(lanes: seq<Lane>, coordinate: Coordinate, i: nat, j: nat)
    requires NotShared(lanes, coordinate) && i < j < |lanes|
    requires IdentityOk(lanes[i], coordinate) && IdentityOk(lanes[j], coordinate)
    ensures FieldOf(lanes[i], coordinate).value != FieldOf(lanes[j], coordinate).value
  {
    var s := FieldOf(lanes[j], coordinate).value;
    if FieldOf(lanes[i], coordinate).value == s {
      UsersCount(lanes, coordinate, i, j);
      assert lanes[..j + 1][..j] == lanes[..j];
      assert |Users(lanes[..j + 1], coordinate, s)| == |Users(lanes[..j], coordinate, s)| + 1;
      UsersGrow(lanes, coordinate, s, j + 1);
    }
  }

  ghost predicate Recorded(lanes: seq<Lane>, coordinate: Coordinate, users: map<string, seq<Id>>)
  {
    forall s {:trigger At(users, s)} :: At(users, s) == Users(lanes, coordinate, s)
  }

  /** What one more lane adds to the users of an identity. */
  ghost function Used(lane: Lane, coordinate: Coordinate, identity: string): seq<Id>
  {
    if IdentityOk(lane, coordinate) && FieldOf(lane, coordinate).value == identity then [Display(lane)] else []
  }

  lemma UsersNext(lanes: seq<Lane>, lane: Lane, coordinate: Coordinate, s: string)
    ensures Users(lanes + [lane], coordinate, s) == Users(lanes, coordinate, s) + Used(lane, coordinate, s)
  {
    assert (lanes + [lane])[..|lanes|] == lanes;
  }

  function Using(users: map<string, seq<Id>>, lane: Lane, coordinate: Coordinate): map<string, seq<Id>>
  {
    if IdentityOk(lane, coordinate) then Push(users, FieldOf(lane, coordinate).value, Display(lane)) else users
  }

  lemma UsingAt(users: map<string, seq<Id>>, lane: Lane, coordinate: Coordinate, s: string)
    ensures At(Using(users, lane, coordinate), s) == At(users, s) + Used(lane, coordinate, s)
  {
  }

  lemma RecordedNext(lanes: seq<Lane>, lane: Lane, coordinate: Coordinate, users: map<string, seq<Id>>)
    requires Recorded(lanes, coordinate, users)
    ensures Recorded(lanes + [lane], coordinate, Using(users, lane, coordinate))
  {
    forall s
      ensures At(Using(users, lane, coordinate), s) == Users(lanes + [lane], coordinate, s)
    {
      UsingAt(users, lane, coordinate, s);
      UsersNext(lanes, lane, coordinate, s);
    }
  }

  method CheckSharing(lanes: seq<Lane>, coordinate: Coordinate) returns (errors: seq<Problem>)
    ensures errors == [] <==> NotShared(lanes, coordinate)
  {
    var users: map<string, seq<Id>> := map[];
    for k := 0 to |lanes|
      invariant Recorded(lanes[..k], coordinate, users)
    {
      RecordedNext(lanes[..k], lanes[k], coordinate, users);
      assert lanes[..k + 1] == lanes[..k] + [lanes[k]];
      if IdentityOk(lanes[k], coordinate) {
        users := Push(users, FieldOf(lanes[k], coordinate).value, Display(lanes[k]));
      }
    }
    assert lanes[..|lanes|] == lanes;
    errors := CheckUsers(users, coordinate);
    ShortMeansNotShared(lanes, coordinate, users);
  }

  ghost predicate AllShort(users: map<string, seq<Id>>, keys: set<string>)
  {
    forall s {:trigger At(users, s)} | s in keys :: |At(users, s)| <= 1
  }

  lemma ShortMeansNotShared(lanes: seq<Lane>, coordinate: Coordinate, users: map<string, seq<Id>>)
    requires Recorded(lanes, coordinate, users)
    ensures AllShort(users, users.Keys) <==> NotShared(lanes, coordinate)
  {
    forall s
      ensures At(users, s) == Users(lanes, coordinate, s) && (s !in users ==> At(users, s) == [])
    {
    }
    if AllShort(users, users.Keys) {
      forall s
        ensures |Users(lanes, coordinate, s)| <= 1
      {
        assert At(users, s) == Users(lanes, coordinate, s);
      }
    }
    if NotShared(lanes, coordinate) {
      forall s | s in users
        ensures |At(users, s)| <= 1
      {
        assert |Users(lanes, coordinate, s)| <= 1;
      }
    }
  }

  method CheckUsers(users: map<string, seq<Id>>, coordinate: Coordinate) returns (errors: seq<Problem>)
    ensures errors == [] <==> AllShort(users, users.Keys)
  {
    errors := [];
    var todo := users.Keys;
    while todo != {}
      invariant todo <= users.Keys && (errors == [] <==> AllShort(users, users.Keys - todo))
    {
      var s :| s in todo;
      assert users.Keys - (todo - {s}) == users.Keys - todo + {s};
      todo := todo - {s};
      assert At(users, s) == users[s];
      if |users[s]| > 1 {
        errors := errors + [SharedIdentity(coordinate)];
      }
    }
    assert users.Keys - {} == users.Keys;
  }

  // ---------------------------------------------------------------- dependencies

  function Identifier(lane: Lane): Id
  {
    Id(if lane.id.Given? then lane.id.value else "<unnamed>")
  }

  predicate Known(item: Item, ids: set<Id>, self: Id)
  {
    item.Str? && Id(item.text) in ids && Id(item.text) != self
  }

  /** Every dependency is another lane of the plan. */
  ghost predicate AllKnown(items: seq<Item>, ids: set<Id>, self: Id)
  {
    forall k {:trigger Known(items[k], ids, self)} | 0 <= k < |items| :: Known(items[k], ids, self)
  }

  lemma AllKnownNext(items: seq<Item>, item: Item, ids: set<Id>, self: Id)
    ensures AllKnown(items + [item], ids, self) <==> AllKnown(items, ids, self) && Known(item, ids, self)
  {
    var more := items + [item];
    assert more[|items|] == item && forall k | 0 <= k < |items| :: more[k] == items[k];
    if AllKnown(more, ids, self) {
      assert Known(more[|items|], ids, self) && forall k | 0 <= k < |items| :: Known(more[k], ids, self);
    }
  }

  ghost predicate LaneKnown(lane: Lane, ids: set<Id>)
  {
    AllKnown(ListOf(lane.dependsOn), ids, Identifier(lane))
  }

  method CheckDependenciesOf(lane: Lane, ids: set<Id>) returns (errors: seq<Problem>)
    ensures errors == [] <==> LaneKnown(lane, ids)
  {
    errors := [];
    var items, self := ListOf(lane.dependsOn), Identifier(lane);
    for k := 0 to |items|
      invariant errors == [] <==> AllKnown(items[..k], ids, self)
    {
      AllKnownNext(items[..k], items[k], ids, self);
      assert items[..k + 1] == items[..k] + [items[k]];
      if !(items[k].Str? && Id(items[k].text) in ids) {
        errors := errors + [UnknownDependency(self)];
      } else if Id(items[k].text) == self {
        errors := errors + [SelfDependency(self)];
      }
    }
    assert items[..|items|] == items;
  }

  ghost predicate DependenciesKnown(lanes: seq<Lane>, ids: set<Id>)
  {
    forall k {:trigger LaneKnown(lanes[k], ids)} | 0 <= k < |lanes| :: LaneKnown(lanes[k], ids)
  }

  method CheckDependencies(lanes: seq<Lane>, ids: set<Id>) returns (errors: seq<Problem>)
    ensures errors == [] <==> DependenciesKnown(lanes, ids)
  {
    hide LaneKnown;
    errors := [];
    for k := 0 to |lanes|
      invariant errors == [] <==>
        forall j {:trigger LaneKnown(lanes[j], ids)} | 0 <= j < k :: LaneKnown(lanes[j], ids)
    {
      var more := CheckDependenciesOf(lanes[k], ids);
      errors := errors + more;
    }
  }

  function DependencySet(lane: Lane, ids: set<Id>): set<Id>
  {
    set item | item in ListOf(lane.dependsOn) && item.Str? && Id(item.text) in ids :: Id(item.text)
  }

  /** The dependency graph; of lanes with the same identifier the last one counts. */
  function Graph(lanes: seq<Lane>, ids: set<Id>): (g: Dependencies)
    ensures Within(g, ids)
  {
    if lanes == [] then map[] else
      var n := |lanes| - 1;
      var g := Graph(lanes[..n], ids);
      if lanes[n].id.Given? && Identifier(lanes[n]) in ids then g[Identifier(lanes[n]) := DependencySet(lanes[n], ids)] else g
  }

  lemma {:induction false} GraphAt(lanes: seq<Lane>, ids: set<Id>, i: nat)
    requires i < |lanes| && lanes[i].id.Given? && Identifier(lanes[i]) in ids
    requires forall j | i < j < |lanes| && lanes[j].id.Given? :: Identifier(lanes[j]) != Identifier(lanes[i])
    ensures DependsOn(Graph(lanes, ids), Identifier(lanes[i])) == DependencySet(lanes[i], ids)
  {
    var n := |lanes| - 1;
    if i < n {
      assert lanes[..n][i] == lanes[i];
      GraphAt(lanes[..n], ids, i);
    }
  }

  // ---------------------------------------------------------------- leases

  /** The lanes that claims name as holders; names of no lane are ignored. */
  function Holders(claims: seq<Claim>, ids: set<Id>): set<Id>
  {
    set c | c in claims && c.holder.Str? && Id(c.holder.text) in ids :: Id(c.holder.text)
  }

  function Declarers(claims: seq<Claim>, ids: set<Id>): set<Id>
  {
    set c | c in claims && c.declarer in ids :: c.declarer
  }

  /** Exactly one lane is named as holder, and it declares the resource itself. */
  predicate HeldWell(claims: seq<Claim>, ids: set<Id>)
  {
    var holders := Holders(claims, ids);
    |holders| == 1 && holders <= Declarers(claims, ids)
  }

  predicate AllClaimsStructured(claims: seq<Claim>)
  {
    forall c | c in claims :: c.structured
  }

  /** The lease counts for those that declare it. */
  predicate Governed(claims: seq<Claim>, ids: set<Id>)
  {
    HeldWell(claims, ids) && AllClaimsStructured(claims)
  }

  method CheckResource(resource: string, claims: seq<Claim>, ids: set<Id>) returns (errors: seq<Problem>)
    ensures errors == [] <==> HeldWell(claims, ids)
    ensures LeaseHolder(resource) in errors <==> |Holders(claims, ids)| != 1
    ensures |Holders(claims, ids)| == 1 ==>
      (LeaseDeclarer(resource) in errors <==> Holders(claims, ids) !! Declarers(claims, ids))
  {
    var holders := Holders(claims, ids);
    errors := if |holders| != 1 then [LeaseHolder(resource)] else [];
    if holders != {} {
      var holder :| holder in holders;
      if |holders| == 1 {
        OnlyOne(holders, holder);
      }
      if holder !in Declarers(claims, ids) {
        errors := errors + [LeaseDeclarer(resource)];
      }
    }
  }

  lemma OnlyOne(s: set<Id>, x: Id)
    requires |s| == 1 && x in s
    ensures s == {x}
  {
    assert |s - {x}| == 0;
  }

  /** For every lane the leases that count for it. */
  type Leases = map<Id, set<string>>

  ghost predicate LeasedRight(claims: Claims, resources: set<string>, ids: set<Id>, leased: Leases)
    requires resources <= claims.Keys
  {
    leased.Keys == ids &&
    forall x, r {:trigger r in leased[x]} | x in ids ::
      r in leased[x] <==> r in resources && Governed(claims[r], ids) && x in Declarers(claims[r], ids)
  }

  ghost predicate AllHeldWell(claims: Claims, resources: set<string>, ids: set<Id>)
    requires resources <= claims.Keys
  {
    forall r {:trigger claims[r]} | r in resources :: HeldWell(claims[r], ids)
  }

  /** One resource more. */
  function Lend(leased: Leases, declarers: set<Id>, resource: string): Leases
  {
    map x | x in leased :: if x in declarers then leased[x] + {resource} else leased[x]
  }

  lemma LeasedNext(claims: Claims, resources: set<string>, ids: set<Id>, leased: Leases, r: string)
    requires resources <= claims.Keys && r in claims && r !in resources && LeasedRight(claims, resources, ids, leased)
    ensures LeasedRight(claims, resources + {r}, ids,
                        if Governed(claims[r], ids) then Lend(leased, Declarers(claims[r], ids), r) else leased)
  {
  }

  method CheckClaims(claims: Claims, ids: set<Id>) returns (errors: seq<Problem>, leased: Leases)
    ensures errors == [] <==> AllHeldWell(claims, claims.Keys, ids)
    ensures LeasedRight(claims, claims.Keys, ids, leased)
  {
    errors, leased := [], map x | x in ids :: {};
    var todo := claims.Keys;
    ghost var done := {};
    while todo != {}
      invariant done + todo == claims.Keys && done !! todo
      invariant errors == [] <==> AllHeldWell(claims, done, ids)
      invariant LeasedRight(claims, done, ids, leased)
    {
      var r :| r in todo;
      LeasedNext(claims, done, ids, leased, r);
      var more := CheckResource(r, claims[r], ids);
      errors := errors + more;
      if Governed(claims[r], ids) {
        leased := Lend(leased, Declarers(claims[r], ids), r);
      }
      todo, done := todo - {r}, done + {r};
    }
    assert done == claims.Keys;
  }

  // ---------------------------------------------------------------- overlapping ownership

  predicate Overlap(left: seq<string>, right: seq<string>)
  {
    exists l, r | l in left && r in right :: PathsOverlap(l, r)
  }

  function LeasesAt(leased: Leases, x: Id): set<string>
  {
    if x in leased then leased[x] else {}
  }

  /** Two lanes own no overlapping globs, or share a lease. */
  predicate PairOk(left: Lane, right: Lane, leased: Leases)
  {
    Overlap(PathsOf(left), PathsOf(right)) ==> LeasesAt(leased, Display(left)) * LeasesAt(leased, Display(right)) != {}
  }

  ghost predicate PairsOk(lanes: seq<Lane>, leased: Leases)
  {
    forall i, j {:trigger PairOk(lanes[i], lanes[j], leased)} | 0 <= i < j < |lanes| :: PairOk(lanes[i], lanes[j], leased)
  }

  method CheckOverlaps(lanes: seq<Lane>, leased: Leases) returns (errors: seq<Problem>)
    ensures errors == [] <==> PairsOk(lanes, leased)
  {
    hide PairOk;
    errors := [];
    for i := 0 to |lanes|
      invariant errors == [] <==>
        forall k, j {:trigger PairOk(lanes[k], lanes[j], leased)} | 0 <= k < i && k < j < |lanes| :: PairOk(lanes[k], lanes[j], leased)
    {
      ghost var before := errors;
      for j := i + 1 to |lanes|
        invariant errors == [] <==>
          before == [] && forall k {:trigger PairOk(lanes[i], lanes[k], leased)} | i < k < j :: PairOk(lanes[i], lanes[k], leased)
      {
        if !PairOk(lanes[i], lanes[j], leased) {
          errors := errors + [OverlappingPaths];
        }
      }
    }
  }

  // ---------------------------------------------------------------- constrained resources

  predicate Leased(leased: Leases, resource: string)
  {
    exists x | x in leased :: resource in leased[x]
  }

  ghost predicate ConstrainedOk(constrained: Field<seq<Item>>, leased: Leases)
  {
    !constrained.Malformed? &&
    forall item | item in ListOf(constrained) :: Named(item) && Leased(leased, item.text)
  }

  method CheckConstrained(constrained: Field<seq<Item>>, leased: Leases) returns (errors: seq<Problem>)
    ensures errors == [] <==> ConstrainedOk(constrained, leased)
  {
    var items := ListOf(constrained);
    errors := if constrained.Malformed? || exists item | item in items :: !Named(item) then [ConstrainedNotList] else [];
    ghost var listed := errors == [];
    for k := 0 to |items|
      invariant errors == [] <==> listed && forall j | 0 <= j < k :: Named(items[j]) ==> Leased(leased, items[j].text)
    {
      if Named(items[k]) && !Leased(leased, items[k].text) {
        errors := errors + [ConstrainedWithoutLease(items[k].text)];
      }
    }
  }
}
