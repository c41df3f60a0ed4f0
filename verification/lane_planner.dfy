/** Validation of a plan of parallel lanes: identities, ownership, leases, dependencies and the integration order. */
module LanePlanner {
  import opened Strings
  import opened LaneGraph
  import opened PathGlobs

  // ---------------------------------------------------------------- plans

  /** A field of a JSON object: absent, of the wrong type, or given. */
  datatype Field<+T> = Missing | Malformed | Given(value: T)

  /** An element of a JSON list; only strings matter. */
  datatype Item = Str(text: string) | Other

  datatype Lease = NotObject | Lease(resource: Item, holder: Item, release: Item)

  datatype Lane = Lane(keys: set<string>, id: Field<string>, ownedPaths: Field<seq<Item>>, dependsOn: Field<seq<Item>>,
                       branch: Field<string>, worktree: Field<string>, leases: Field<seq<Lease>>)

  datatype Entry = LaneEntry(lane: Lane) | OtherEntry

  datatype Plan = Plan(effort: Field<string>, decisionBasis: Field<string>, strategy: Field<string>, lanes: Field<seq<Entry>>,
                       constrained: Field<seq<Item>>, integrationOrder: Field<seq<Item>>)

  /** The lane rules of the policy, and which characters beyond ASCII are word characters. */
  datatype Rules = Rules(effortLevels: set<string>, strategies: set<string>, required: set<string>, unicode: char -> bool)

  datatype Coordinate = Branch | Worktree

  datatype Problem =
    | EffortNotAllowed | DecisionBasisRequired | LanesNotList | LanesNotObjects | StrategyRequired | StrategyNotAllowed
    | SingleAgentNeedsOneLane | ParallelNeedsTwoLanes | ParallelNeedsOrder
    | IdRequired | DuplicateId(id: Id) | FieldMissing(lane: Id, field: string)
    | UnsafePaths(lane: Id) | UnsupportedWildcard | PathsRequired(lane: Id) | DependsOnNotList(lane: Id) | Retired(lane: Id)
    | IdentityRequired(lane: Id, coordinate: Coordinate) | NotBranchRef(lane: Id)
    | LeasesNotList(lane: Id) | LeaseNotStructured(lane: Id) | SharedIdentity(coordinate: Coordinate)
    | UnknownDependency(lane: Id) | SelfDependency(lane: Id) | Cyclic
    | LeaseHolder(resource: string) | LeaseDeclarer(resource: string) | OverlappingPaths
    | ConstrainedNotList | ConstrainedWithoutLease(resource: string) | OrderIncomplete | OrderViolated

  function ListOf<T>(f: Field<seq<T>>): seq<T>
  {
    if f.Given? then f.value else []
  }

  predicate Blank(s: string)
  {
    Strip(s, Space) == ""
  }

  predicate Named(item: Item)
  {
    item.Str? && !Blank(item.text)
  }

  /** The name under which a lane is reported. */
  function Display(lane: Lane): Id
  {
    if HasId(lane) then Id(lane.id.value) else Id("<unnamed>")
  }

  predicate HasId(lane: Lane)
  {
    lane.id.Given? && lane.id.value != ""
  }

  function LanesOf(entries: seq<Entry>): (lanes: seq<Lane>)
    ensures |lanes| <= |entries|
    ensures |lanes| == |entries| <==> forall k | 0 <= k < |entries| :: entries[k].LaneEntry?
  {
    if entries == [] then [] else
      var n := |entries| - 1;
      LanesOf(entries[..n]) + if entries[n].LaneEntry? then [entries[n].lane] else []
  }

  // ---------------------------------------------------------------- one lane

  predicate SafeItem(item: Item)
  {
    item.Str? && Safe(item.text)
  }

  /** The globs a lane owns. */
  function OwnedPaths(items: seq<Item>): seq<string>
  {
    if items == [] then [] else
      var n := |items| - 1;
      OwnedPaths(items[..n]) + if SafeItem(items[n]) then [items[n].text] else []
  }

  ghost predicate AllSafe(items: seq<Item>)
  {
    forall k | 0 <= k < |items| :: SafeItem(items[k])
  }

  lemma {:induction false} OwnedAll(items: seq<Item>)
    ensures |OwnedPaths(items)| <= |items|
    ensures |OwnedPaths(items)| == |items| <==> AllSafe(items)
  {
    if items != [] {
      var n := |items| - 1;
      OwnedAll(items[..n]);
      assert items == items[..n] + [items[n]];
      assert AllSafe(items) <==> AllSafe(items[..n]) && SafeItem(items[n]);
    }
  }

  lemma InFront<T>(s: seq<T>, y: T)
    requires s != []
    ensures y in s <==> y in s[..|s| - 1] || y == s[|s| - 1]
  {
    assert s == s[..|s| - 1] + [s[|s| - 1]];
  }

  lemma {:induction false} OwnedFrom(items: seq<Item>, path: string)
    ensures path in OwnedPaths(items) <==> SafeItem(Str(path)) && Str(path) in items
  {
    if items != [] {
      var n := |items| - 1;
      OwnedFrom(items[..n], path);
      InFront(items, Str(path));
    }
  }

  function PathsOf(lane: Lane): seq<string>
  {
    OwnedPaths(ListOf(lane.ownedPaths))
  }

  /** An unsafe item is reported elsewhere. */
  predicate PathOk(item: Item, unicode: char -> bool)
  {
    SafeItem(item) ==> Supported(item.text, unicode)
  }

  ghost predicate AllSupported(items: seq<Item>, unicode: char -> bool)
  {
    forall k | 0 <= k < |items| :: PathOk(items[k], unicode)
  }

  lemma AllSupportedNext(items: seq<Item>, item: Item, unicode: char -> bool)
    ensures AllSupported(items + [item], unicode) <==> AllSupported(items, unicode) && PathOk(item, unicode)
  {
    assert (items + [item])[|items|] == item;
    assert forall k | 0 <= k < |items| :: (items + [item])[k] == items[k];
  }

  /** A list of safe globs, at least one, all of them supported. */
  ghost predicate PathsOk(lane: Lane, unicode: char -> bool)
  {
    lane.ownedPaths.Given? && lane.ownedPaths.value != [] && AllSafe(lane.ownedPaths.value) &&
    AllSupported(lane.ownedPaths.value, unicode)
  }

  method CheckSupported(items: seq<Item>, unicode: char -> bool) returns (errors: seq<Problem>)
    ensures errors == [] <==> AllSupported(items, unicode)
    ensures forall e | e in errors :: e == UnsupportedWildcard
  {
    errors := [];
    for k := 0 to |items|
      invariant errors == [] <==> AllSupported(items[..k], unicode)
      invariant forall e | e in errors :: e == UnsupportedWildcard
    {
      AllSupportedNext(items[..k], items[k], unicode);
      assert items[..k + 1] == items[..k] + [items[k]];
      if !PathOk(items[k], unicode) {
        errors := errors + [UnsupportedWildcard];
      }
    }
    assert items[..|items|] == items;
  }

  method CheckPaths(lane: Lane, unicode: char -> bool) returns (errors: seq<Problem>)
    ensures errors == [] <==> PathsOk(lane, unicode)
    ensures UnsafePaths(Display(lane)) in errors <==> !lane.ownedPaths.Given? || !AllSafe(lane.ownedPaths.value)
    ensures UnsupportedWildcard in errors <==> !AllSupported(ListOf(lane.ownedPaths), unicode)
    ensures PathsRequired(Display(lane)) in errors <==> PathsOf(lane) == []
  {
    var items, owned := ListOf(lane.ownedPaths), PathsOf(lane);
    OwnedAll(items);
    errors := if !lane.ownedPaths.Given? || |owned| != |items| then [UnsafePaths(Display(lane))] else [];
    var unsupported := CheckSupported(items, unicode);
    assert unsupported != [] ==> unsupported[0] in unsupported;
    errors := errors + unsupported;
    if owned == [] {
      errors := errors + [PathsRequired(Display(lane))];
    }
  }

  /** The rules of git-check-ref-format for a full branch name. */
  predicate IsBranchRef(s: string)
  {
    "refs/heads/" <= s && s[|s| - 1] != '.' &&
    (forall part | part in Split(s, '/') :: part != "" && part[0] != '.' && !EndsWith(part, ".lock")) &&
    (forall k | 0 < k < |s| :: !PairAt(s, k, '.', '.') && !PairAt(s, k, '@', '{')) &&
    forall c | c in s :: c as int > 32 && c as int != 127 && c !in "~^:?*[\\"
  }

  predicate PairAt(s: string, k: nat, a: char, b: char)
    requires 0 < k < |s|
  {
    s[k - 1] == a && s[k] == b
  }

  function FieldOf(lane: Lane, coordinate: Coordinate): Field<string>
  {
    if coordinate == Branch then lane.branch else lane.worktree
  }

  predicate Canonical(f: Field<string>)
  {
    f.Given? && f.value != "" && Strip(f.value, Space) == f.value && forall c | c in f.value :: c as int >= 32
  }

  /** A canonical identity, for a branch also a well-formed ref. */
  predicate IdentityOk(lane: Lane, coordinate: Coordinate)
  {
    Canonical(FieldOf(lane, coordinate)) && (coordinate == Branch ==> IsBranchRef(lane.branch.value))
  }

  method CheckIdentity(lane: Lane, coordinate: Coordinate) returns (errors: seq<Problem>)
    ensures errors == [] <==> IdentityOk(lane, coordinate)
  {
    if !Canonical(FieldOf(lane, coordinate)) {
      return [IdentityRequired(Display(lane), coordinate)];
    }
    if coordinate == Branch && !IsBranchRef(lane.branch.value) {
      return [NotBranchRef(Display(lane))];
    }
    return [];
  }

  predicate Structured(lease: Lease)
  {
    lease.Lease? && Named(lease.resource) && Named(lease.holder) && Named(lease.release)
  }

  ghost predicate LeasesOk(lane: Lane)
  {
    !lane.leases.Malformed? && AllStructured(ListOf(lane.leases))
  }

  ghost predicate AllStructured(leases: seq<Lease>)
  {
    forall k {:trigger Structured(leases[k])} | 0 <= k < |leases| :: Structured(leases[k])
  }

  lemma AllStructuredNext(leases: seq<Lease>, lease: Lease)
    ensures AllStructured(leases + [lease]) <==> AllStructured(leases) && Structured(lease)
  {
    var more := leases + [lease];
    assert more[|leases|] == lease;
    assert forall k | 0 <= k < |leases| :: more[k] == leases[k];
    if AllStructured(more) {
      assert forall k | 0 <= k < |leases| :: Structured(more[k]);
      assert Structured(more[|leases|]);
    }
  }

  /** What one lane declares about one resource. */
  datatype Claim = Claim(declarer: Id, holder: Item, structured: bool)

  type Claims = map<string, seq<Claim>>

  /** A dictionary of lists: the list under a key, and appending to it. */
  function At<T>(m: map<string, seq<T>>, key: string): seq<T>
  {
    if key in m then m[key] else []
  }

  function Push<T>(m: map<string, seq<T>>, key: string, x: T): map<string, seq<T>>
  {
    m[key := At(m, key) + [x]]
  }

  predicate Claiming(lease: Lease)
  {
    lease.Lease? && Named(lease.resource)
  }

  function ClaimOf(lane: Lane, lease: Lease): Claim
    requires lease.Lease?
  {
    Claim(Display(lane), lease.holder, Structured(lease))
  }

  /** The claim that one lease makes on a resource, if any. */
  function OneClaim(lane: Lane, lease: Lease, resource: string): seq<Claim>
  {
    if Claiming(lease) && lease.resource.text == resource then [ClaimOf(lane, lease)] else []
  }

  /** The claims of a list of leases on one resource, in order. */
  ghost function LeaseClaims(lane: Lane, leases: seq<Lease>, resource: string): seq<Claim>
  {
    if leases == [] then [] else
      var n := |leases| - 1;
      LeaseClaims(lane, leases[..n], resource) + OneClaim(lane, leases[n], resource)
  }

  ghost function LaneClaims(lanes: seq<Lane>, resource: string): seq<Claim>
  {
    if lanes == [] then [] else
      var n := |lanes| - 1;
      LaneClaims(lanes[..n], resource) + LeaseClaims(lanes[n], ListOf(lanes[n].leases), resource)
  }

  ghost predicate Collected(before: Claims, lane: Lane, leases: seq<Lease>, claims: Claims)
  {
    forall r {:trigger At(claims, r)} :: At(claims, r) == At(before, r) + LeaseClaims(lane, leases, r)
  }

  ghost predicate NoEmpty(claims: Claims)
  {
    forall r {:trigger claims[r]} | r in claims :: claims[r] != []
  }

  function Collect(claims: Claims, lane: Lane, lease: Lease): Claims
  {
    if Claiming(lease) then Push(claims, lease.resource.text, ClaimOf(lane, lease)) else claims
  }

  lemma CollectAt(claims: Claims, lane: Lane, lease: Lease, r: string)
    ensures At(Collect(claims, lane, lease), r) == At(claims, r) + OneClaim(lane, lease, r)
  {
  }

  lemma CollectOne(before: Claims, lane: Lane, leases: seq<Lease>, claims: Claims, lease: Lease)
    requires Collected(before, lane, leases, claims)
    ensures Collected(before, lane, leases + [lease], Collect(claims, lane, lease))
    ensures NoEmpty(claims) ==> NoEmpty(Collect(claims, lane, lease))
  {
    forall r
      ensures At(Collect(claims, lane, lease), r) == At(before, r) + LeaseClaims(lane, leases + [lease], r)
    {
      assert At(claims, r) == At(before, r) + LeaseClaims(lane, leases, r);
      CollectAt(claims, lane, lease, r);
      LeaseClaimsLast(lane, leases, lease, r);
      Regroup(At(before, r), LeaseClaims(lane, leases, r), OneClaim(lane, lease, r));
    }
  }

  lemma LeaseClaimsLast(lane: Lane, leases: seq<Lease>, lease: Lease, r: string)
    ensures LeaseClaims(lane, leases + [lease], r) == LeaseClaims(lane, leases, r) + OneClaim(lane, lease, r)
  {
    assert (leases + [lease])[..|leases|] == leases;
  }

  lemma Regroup(a: seq<Claim>, b: seq<Claim>, c: seq<Claim>)
    ensures a + b + c == a + (b + c)
  {
  }

  method CheckLeases(lane: Lane, before: Claims) returns (errors: seq<Problem>, claims: Claims)
    ensures errors == [] <==> LeasesOk(lane)
    ensures Collected(before, lane, ListOf(lane.leases), claims) && (NoEmpty(before) ==> NoEmpty(claims))
  {
    errors, claims := [], before;
    var leases := ListOf(lane.leases);
    for k := 0 to |leases|
      invariant errors == [] <==> AllStructured(leases[..k])
      invariant Collected(before, lane, leases[..k], claims) && (NoEmpty(before) ==> NoEmpty(claims))
    {
      var lease := leases[k];
      CollectOne(before, lane, leases[..k], claims, lease);
      AllStructuredNext(leases[..k], lease);
      assert leases[..k + 1] == leases[..k] + [lease];
      if !Structured(lease) {
        errors := errors + [LeaseNotStructured(Display(lane))];
      }
      claims := Collect(claims, lane, lease);
    }
    assert leases[..|leases|] == leases;
    if lane.leases.Malformed? {
      errors := errors + [LeasesNotList(Display(lane))];
    }
  }

  method CheckFields(lane: Lane, required: set<string>) returns (errors: seq<Problem>)
    ensures errors == [] <==> required <= lane.keys
  {
    errors := [];
    var todo := required;
    while todo != {}
      invariant todo <= required && (errors == [] <==> required - todo <= lane.keys)
    {
      var field :| field in todo;
      todo := todo - {field};
      assert required - todo == required - (todo + {field}) + {field};
      if field !in lane.keys {
        errors := errors + [FieldMissing(Display(lane), field)];
      }
    }
  }

  /** Everything a lane must satisfy on its own. */
  ghost predicate LaneOk(lane: Lane, rules: Rules)
  {
    HasId(lane) && rules.required <= lane.keys && PathsOk(lane, rules.unicode) && !lane.dependsOn.Malformed? &&
    "branch_and_worktree" !in lane.keys && IdentityOk(lane, Branch) && IdentityOk(lane, Worktree) && LeasesOk(lane)
  }

  method CheckLane(lane: Lane, ids: set<Id>, before: Claims, rules: Rules) returns (errors: seq<Problem>, claims: Claims)
    ensures errors == [] <==> LaneOk(lane, rules) && Display(lane) !in ids
    ensures Collected(before, lane, ListOf(lane.leases), claims) && (NoEmpty(before) ==> NoEmpty(claims))
  {
    errors := if !HasId(lane) then [IdRequired] else if Display(lane) in ids then [DuplicateId(Display(lane))] else [];
    var fields := CheckFields(lane, rules.required);
    var paths := CheckPaths(lane, rules.unicode);
    errors := errors + fields + paths;
    if lane.dependsOn.Malformed? {
      errors := errors + [DependsOnNotList(Display(lane))];
    }
    if "branch_and_worktree" in lane.keys {
      errors := errors + [Retired(Display(lane))];
    }
    var branch := CheckIdentity(lane, Branch);
    var worktree := CheckIdentity(lane, Worktree);
    var leases;
    leases, claims := CheckLeases(lane, before);
    errors := errors + branch + worktree + leases;
  }

  // ---------------------------------------------------------------- all lanes

  function Ids(lanes: seq<Lane>): set<Id>
  {
    set k | 0 <= k < |lanes| && HasId(lanes[k]) :: Id(lanes[k].id.value)
  }

  ghost predicate Distinct(lanes: seq<Lane>)
  {
    forall i, j | 0 <= i < j < |lanes| :: Display(lanes[i]) != Display(lanes[j])
  }

  ghost predicate LanesOk(lanes: seq<Lane>, rules: Rules)
  {
    Distinct(lanes) && EachOk(lanes, rules)
  }

  ghost predicate EachOk(lanes: seq<Lane>, rules: Rules)
  {
    forall k {:trigger LaneOk(lanes[k], rules)} | 0 <= k < |lanes| :: LaneOk(lanes[k], rules)
  }

  lemma IdsNext(lanes: seq<Lane>, lane: Lane)
    ensures Ids(lanes + [lane]) == Ids(lanes) + if HasId(lane) then {Display(lane)} else {}
  {
    var more := lanes + [lane];
    assert more[|lanes|] == lane;
    assert forall k | 0 <= k < |lanes| :: more[k] == lanes[k];
    forall x
      ensures x in Ids(more) <==> x in Ids(lanes) + if HasId(lane) then {Display(lane)} else {}
    {
      if k :| 0 <= k < |lanes| && HasId(lanes[k]) && x == Id(lanes[k].id.value) {
        assert HasId(more[k]);
      }
    }
  }

  lemma LanesOkNext(lanes: seq<Lane>, lane: Lane, rules: Rules)
    ensures LanesOk(lanes + [lane], rules) <==>
      LanesOk(lanes, rules) && LaneOk(lane, rules) && Display(lane) !in Ids(lanes)
  {
    var more := lanes + [lane];
    assert more[|lanes|] == lane;
    assert forall k | 0 <= k < |lanes| :: more[k] == lanes[k];
    if EachOk(more, rules) || (EachOk(lanes, rules) && LaneOk(lane, rules)) {
      assert EachOk(lanes, rules);
      DisplayInIds(lanes, lane, rules);
    }
  }

  lemma DisplayInIds(lanes: seq<Lane>, lane: Lane, rules: Rules)
    requires EachOk(lanes, rules)
    ensures Display(lane) in Ids(lanes) <==> exists k | 0 <= k < |lanes| :: Display(lanes[k]) == Display(lane)
  {
    forall k | 0 <= k < |lanes|
      ensures Display(lanes[k]) in Ids(lanes) && HasId(lanes[k])
    {
      assert LaneOk(lanes[k], rules);
    }
  }

  ghost predicate AllCollected(lanes: seq<Lane>, claims: Claims)
  {
    forall r {:trigger At(claims, r)} :: At(claims, r) == LaneClaims(lanes, r)
  }

  lemma AllCollectedNext(lanes: seq<Lane>, before: Claims, lane: Lane, claims: Claims)
    requires AllCollected(lanes, before) && Collected(before, lane, ListOf(lane.leases), claims)
    ensures AllCollected(lanes + [lane], claims)
  {
    assert (lanes + [lane])[..|lanes|] == lanes;
    forall r
      ensures At(claims, r) == LaneClaims(lanes + [lane], r)
    {
      assert At(before, r) == LaneClaims(lanes, r);
    }
  }

  method CheckLanes(lanes: seq<Lane>, rules: Rules) returns (errors: seq<Problem>, ids: set<Id>, claims: Claims)
    ensures errors == [] <==> LanesOk(lanes, rules)
    ensures ids == Ids(lanes) && AllCollected(lanes, claims) && NoEmpty(claims)
  {
    errors, ids, claims := [], {}, map[];
    for k := 0 to |lanes|
      invariant errors == [] <==> LanesOk(lanes[..k], rules)
      invariant ids == Ids(lanes[..k]) && AllCollected(lanes[..k], claims) && NoEmpty(claims)
    {
      var lane := lanes[k];
      ghost var before := claims;
      var more;
      more, claims := CheckLane(lane, ids, claims, rules);
      errors := errors + more;
      LanesOkNext(lanes[..k], lane, rules);
      IdsNext(lanes[..k], lane);
      AllCollectedNext(lanes[..k], before, lane, claims);
      assert lanes[..k + 1] == lanes[..k] + [lane];
      if HasId(lane) {
        ids := ids + {Display(lane)};
      }
    }
    assert lanes[..|lanes|] == lanes;
  }
}
