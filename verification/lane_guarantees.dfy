/** The complete verdict on a lane plan, and what acceptance guarantees. */
module LaneGuarantees {
  import opened LaneGraph
  import opened PathGlobs
  import opened LanePlanner
  import opened LaneValidation

  // ---------------------------------------------------------------- the integration order

  /** The names in a list of strings. */
  function Names(items: seq<Item>): (names: seq<Id>)
    ensures |names| == |items|
    ensures forall i | 0 <= i < |items| && items[i].Str? :: names[i] == Id(items[i].text)
  {
    seq(|items|, i requires 0 <= i < |items| => Id(if items[i].Str? then items[i].text else ""))
  }

  predicate AllStrings(items: seq<Item>)
  {
    forall i | 0 <= i < |items| :: items[i].Str?
  }

  /** A list of all lanes, each exactly once. */
  predicate Listed(order: Field<seq<Item>>, ids: set<Id>)
  {
    order.Given? && AllStrings(order.value) && Elements(Names(order.value)) == ids && |order.value| == |ids|
  }

  ghost predicate Places(positions: map<Id, nat>, order: seq<Id>)
  {
    positions.Keys == Elements(order) && forall x {:trigger positions[x]} | x in positions :: positions[x] == Position(order, x)
  }

  method Positions(order: seq<Id>) returns (positions: map<Id, nat>)
    requires NoDup(order)
    ensures Places(positions, order)
  {
    positions := map[];
    for k := 0 to |order|
      invariant positions.Keys == Elements(order[..k])
      invariant forall x {:trigger positions[x]} | x in positions :: x in order && positions[x] == Position(order, x)
    {
      PositionAt(order, k);
      assert order[..k + 1] == order[..k] + [order[k]];
      positions := positions[order[k] := k];
    }
    assert order[..|order|] == order;
  }

  predicate Before(positions: map<Id, nat>, d: Id, x: Id)
  {
    d in positions && x in positions ==> positions[d] <= positions[x]
  }

  /** No dependency of the lane stands after it. */
  ghost predicate LanePlaced(lane: Lane, ids: set<Id>, order: seq<Id>)
  {
    lane.id.Given? && Identifier(lane) in ids ==>
      forall d | d in DependencySet(lane, ids) && d in order && Identifier(lane) in order ::
        Position(order, d) <= Position(order, Identifier(lane))
  }

  ghost predicate AllPlaced(lanes: seq<Lane>, ids: set<Id>, order: seq<Id>)
  {
    forall k {:trigger LanePlaced(lanes[k], ids, order)} | 0 <= k < |lanes| :: LanePlaced(lanes[k], ids, order)
  }

  ghost predicate OrderOk(lanes: seq<Lane>, ids: set<Id>, order: Field<seq<Item>>)
  {
    Listed(order, ids) && AllPlaced(lanes, ids, Names(order.value))
  }

  method CheckLanePlaced(lane: Lane, ids: set<Id>, ghost order: seq<Id>, positions: map<Id, nat>) returns (ok: bool)
    requires Elements(order) == ids && Places(positions, order)
    ensures ok <==> LanePlaced(lane, ids, order)
  {
    if !(lane.id.Given? && Identifier(lane) in ids) {
      return true;
    }
    var items, self := ListOf(lane.dependsOn), Identifier(lane);
    for k := 0 to |items|
      invariant forall j | 0 <= j < k && items[j].Str? && Id(items[j].text) in ids :: positions[Id(items[j].text)] <= positions[self]
    {
      if items[k].Str? && Id(items[k].text) in ids && positions[Id(items[k].text)] > positions[self] {
        assert Id(items[k].text) in DependencySet(lane, ids);
        return false;
      }
    }
    return true;
  }

  method CheckOrder(lanes: seq<Lane>, ids: set<Id>, order: Field<seq<Item>>) returns (errors: seq<Problem>)
    ensures errors == [] <==> OrderOk(lanes, ids, order)
    ensures OrderIncomplete in errors <==> !Listed(order, ids)
    ensures OrderViolated in errors <==> Listed(order, ids) && !AllPlaced(lanes, ids, Names(order.value))
  {
    if !Listed(order, ids) {
      return [OrderIncomplete];
    }
    var names := Names(order.value);
    var positions := Positions(names);
    for k := 0 to |lanes|
      invariant forall j {:trigger LanePlaced(lanes[j], ids, names)} | 0 <= j < k :: LanePlaced(lanes[j], ids, names)
    {
      var ok := CheckLanePlaced(lanes[k], ids, names, positions);
      if !ok {
        return [OrderViolated];
      }
    }
    return [];
  }

  // ---------------------------------------------------------------- the whole plan

  predicate Is(f: Field<string>, s: string)
  {
    f == Given(s)
  }

  predicate EffortOk(plan: Plan, rules: Rules)
  {
    plan.effort.Given? && plan.effort.value in rules.effortLevels
  }

  predicate BasisOk(plan: Plan)
  {
    plan.decisionBasis.Given? && !Blank(plan.decisionBasis.value)
  }

  /** An allowed strategy for this number of lanes. */
  predicate StrategyOk(plan: Plan, rules: Rules, n: nat)
  {
    plan.strategy.Given? && plan.strategy.value in rules.strategies &&
    (Is(plan.strategy, "single_agent") ==> n == 1) &&
    (Is(plan.strategy, "parallel_when_beneficial") ==> n >= 2 && ListOf(plan.integrationOrder) != [])
  }

  /** Effort, decision basis, strategy and the number of lanes. */
  predicate HeaderOk(plan: Plan, rules: Rules)
  {
    var n := |LanesOf(ListOf(plan.lanes))|;
    EffortOk(plan, rules) && BasisOk(plan) && plan.lanes.Given? && n == |plan.lanes.value| && StrategyOk(plan, rules, n)
  }

  method CheckBasics(plan: Plan, rules: Rules, n: nat) returns (errors: seq<Problem>)
    ensures errors == [] <==>
      EffortOk(plan, rules) && BasisOk(plan) && plan.lanes.Given? && n == |ListOf(plan.lanes)|
    ensures EffortNotAllowed in errors <==> !EffortOk(plan, rules)
    ensures DecisionBasisRequired in errors <==> !BasisOk(plan)
    ensures LanesNotList in errors <==> !plan.lanes.Given?
    ensures LanesNotObjects in errors <==> n != |ListOf(plan.lanes)|
  {
    errors := [];
    if !EffortOk(plan, rules) {
      errors := errors + [EffortNotAllowed];
    }
    if !BasisOk(plan) {
      errors := errors + [DecisionBasisRequired];
    }
    if !plan.lanes.Given? {
      errors := errors + [LanesNotList];
    }
    if n != |ListOf(plan.lanes)| {
      errors := errors + [LanesNotObjects];
    }
  }

  method CheckStrategy(plan: Plan, rules: Rules, n: nat) returns (errors: seq<Problem>)
    ensures errors == [] <==> StrategyOk(plan, rules, n)
    ensures StrategyRequired in errors || StrategyNotAllowed in errors <==>
      !(plan.strategy.Given? && plan.strategy.value in rules.strategies)
    ensures StrategyRequired in errors ==> n > 1
    ensures SingleAgentNeedsOneLane in errors <==> Is(plan.strategy, "single_agent") && n != 1
    ensures ParallelNeedsTwoLanes in errors <==> Is(plan.strategy, "parallel_when_beneficial") && n < 2
  {
    errors := [];
    if !(plan.strategy.Given? && plan.strategy.value in rules.strategies) {
      errors := errors + [if n > 1 then StrategyRequired else StrategyNotAllowed];
    }
    if Is(plan.strategy, "single_agent") && n != 1 {
      errors := errors + [SingleAgentNeedsOneLane];
    }
    if Is(plan.strategy, "parallel_when_beneficial") && n < 2 {
      errors := errors + [ParallelNeedsTwoLanes];
    }
    if Is(plan.strategy, "parallel_when_beneficial") && ListOf(plan.integrationOrder) == [] {
      errors := errors + [ParallelNeedsOrder];
    }
  }

  method CheckHeader(plan: Plan, rules: Rules) returns (errors: seq<Problem>)
    ensures errors == [] <==> HeaderOk(plan, rules)
  {
    var n := |LanesOf(ListOf(plan.lanes))|;
    var basics := CheckBasics(plan, rules, n);
    var strategy := CheckStrategy(plan, rules, n);
    errors := basics + strategy;
  }

  /** The lane declares the resource, and the lease on it counts. */
  ghost predicate Lends(lanes: seq<Lane>, x: Id, r: string)
  {
    Governed(LaneClaims(lanes, r), Ids(lanes)) && x in Declarers(LaneClaims(lanes, r), Ids(lanes))
  }

  ghost predicate LeasesHeld(lanes: seq<Lane>)
  {
    forall r {:trigger LaneClaims(lanes, r)} :: LaneClaims(lanes, r) != [] ==> HeldWell(LaneClaims(lanes, r), Ids(lanes))
  }

  ghost predicate Share(lanes: seq<Lane>, x: Id, y: Id)
  {
    exists r :: Lends(lanes, x, r) && Lends(lanes, y, r)
  }

  ghost predicate Disjoint(lanes: seq<Lane>)
  {
    forall i, j {:trigger lanes[i], lanes[j]} | 0 <= i < j < |lanes| ::
      Overlap(PathsOf(lanes[i]), PathsOf(lanes[j])) ==> Share(lanes, Display(lanes[i]), Display(lanes[j]))
  }

  ghost predicate ResourceLent(lanes: seq<Lane>, r: string)
  {
    exists x :: Lends(lanes, x, r)
  }

  ghost predicate Covered(constrained: Field<seq<Item>>, lanes: seq<Lane>)
  {
    !constrained.Malformed? && forall item | item in ListOf(constrained) :: Named(item) && ResourceLent(lanes, item.text)
  }

  /** Everything that is checked besides cycles. */
  ghost predicate ValidButForCycles(plan: Plan, rules: Rules)
  {
    var lanes := LanesOf(ListOf(plan.lanes));
    HeaderOk(plan, rules) && LanesOk(lanes, rules) && NotShared(lanes, Branch) && NotShared(lanes, Worktree) &&
    DependenciesKnown(lanes, Ids(lanes)) && LeasesHeld(lanes) && Disjoint(lanes) && Covered(plan.constrained, lanes) &&
    OrderOk(lanes, Ids(lanes), plan.integrationOrder)
  }

  ghost predicate Acyclic(plan: Plan)
  {
    var lanes := LanesOf(ListOf(plan.lanes));
    !HasCycle(Graph(lanes, Ids(lanes)))
  }

  lemma LeasedMeansLent(lanes: seq<Lane>, claims: Claims, leased: Leases, x: Id, r: string)
    requires AllCollected(lanes, claims) && LeasedRight(claims, claims.Keys, Ids(lanes), leased)
    ensures r in LeasesAt(leased, x) <==> Lends(lanes, x, r)
  {
    assert At(claims, r) == LaneClaims(lanes, r);
    assert x in leased <==> x in Ids(lanes);
  }

  lemma HeldMeansHeld(lanes: seq<Lane>, claims: Claims)
    requires AllCollected(lanes, claims) && NoEmpty(claims)
    ensures AllHeldWell(claims, claims.Keys, Ids(lanes)) <==> LeasesHeld(lanes)
  {
    forall r
      ensures At(claims, r) == LaneClaims(lanes, r) && (r in claims <==> LaneClaims(lanes, r) != [])
    {
    }
    if AllHeldWell(claims, claims.Keys, Ids(lanes)) {
      forall r | LaneClaims(lanes, r) != []
        ensures HeldWell(LaneClaims(lanes, r), Ids(lanes))
      {
        assert At(claims, r) == claims[r];
      }
    }
    if LeasesHeld(lanes) {
      forall r | r in claims
        ensures HeldWell(claims[r], Ids(lanes))
      {
        assert At(claims, r) == claims[r] == LaneClaims(lanes, r);
      }
    }
  }

  lemma PairsMeanDisjoint(lanes: seq<Lane>, claims: Claims, leased: Leases)
    requires AllCollected(lanes, claims) && LeasedRight(claims, claims.Keys, Ids(lanes), leased)
    ensures PairsOk(lanes, leased) <==> Disjoint(lanes)
  {
    forall i, j | 0 <= i < j < |lanes|
      ensures LeasesAt(leased, Display(lanes[i])) * LeasesAt(leased, Display(lanes[j])) != {} <==>
              Share(lanes, Display(lanes[i]), Display(lanes[j]))
    {
      CommonLease(lanes, claims, leased, Display(lanes[i]), Display(lanes[j]));
    }
    if PairsOk(lanes, leased) {
      assert forall i, j | 0 <= i < j < |lanes| :: PairOk(lanes[i], lanes[j], leased);
    }
  }

  lemma CommonLease(lanes: seq<Lane>, claims: Claims, leased: Leases, x: Id, y: Id)
    requires AllCollected(lanes, claims) && LeasedRight(claims, claims.Keys, Ids(lanes), leased)
    ensures LeasesAt(leased, x) * LeasesAt(leased, y) != {} <==> Share(lanes, x, y)
  {
    if LeasesAt(leased, x) * LeasesAt(leased, y) != {} {
      var r :| r in LeasesAt(leased, x) * LeasesAt(leased, y);
      LeasedMeansLent(lanes, claims, leased, x, r);
      LeasedMeansLent(lanes, claims, leased, y, r);
    }
    if r :| Lends(lanes, x, r) && Lends(lanes, y, r) {
      LeasedMeansLent(lanes, claims, leased, x, r);
      LeasedMeansLent(lanes, claims, leased, y, r);
      assert r in LeasesAt(leased, x) * LeasesAt(leased, y);
    }
  }

  lemma ConstrainedMeansCovered(constrained: Field<seq<Item>>, lanes: seq<Lane>, claims: Claims, leased: Leases)
    requires AllCollected(lanes, claims) && LeasedRight(claims, claims.Keys, Ids(lanes), leased)
    ensures ConstrainedOk(constrained, leased) <==> Covered(constrained, lanes)
  {
    forall r
      ensures Leased(leased, r) <==> ResourceLent(lanes, r)
    {
      if x :| x in leased && r in leased[x] {
        LeasedMeansLent(lanes, claims, leased, x, r);
      }
      if x :| Lends(lanes, x, r) {
        LeasedMeansLent(lanes, claims, leased, x, r);
      }
    }
  }

  /** Validates the lanes of a plan: no problem is reported exactly for valid plans without cycles. */
  method ValidateLanes(plan: Plan, rules: Rules) returns (errors: seq<Problem>)
    ensures errors == [] <==> ValidButForCycles(plan, rules) && Acyclic(plan)
  {
    var lanes := LanesOf(ListOf(plan.lanes));
    var header := CheckHeader(plan, rules);
    var each, ids, claims := CheckLanes(lanes, rules);
    var branches := CheckSharing(lanes, Branch);
    var worktrees := CheckSharing(lanes, Worktree);
    var unknown := CheckDependencies(lanes, ids);
    errors := header + each + branches + worktrees + unknown;
    var cyclic, queue := FindCycle(Graph(lanes, ids), ids);
    if cyclic {
      errors := errors + [Cyclic];
    }
    var held, leased := CheckClaims(claims, ids);
    var overlaps := CheckOverlaps(lanes, leased);
    var constrained := CheckConstrained(plan.constrained, leased);
    var order := CheckOrder(lanes, ids, plan.integrationOrder);
    errors := errors + held + overlaps + constrained + order;
    HeldMeansHeld(lanes, claims);
    PairsMeanDisjoint(lanes, claims, leased);
    ConstrainedMeansCovered(plan.constrained, lanes, claims, leased);
  }

  // ---------------------------------------------------------------- what an accepted plan guarantees

  /** A lease of the lane on the resource. */
  ghost predicate LeaseOn(lane: Lane, lease: Lease, r: string)
  {
    lease in ListOf(lane.leases) && Claiming(lease) && lease.resource.text == r
  }

  ghost predicate Declares(lane: Lane, r: string)
  {
    exists lease :: LeaseOn(lane, lease, r) && Structured(lease)
  }

  /** `h` declares the resource, and every lease on it names `h` or no lane at all. */
  ghost predicate HeldBy(lanes: seq<Lane>, r: string, h: Lane)
  {
    h in lanes && Declares(h, r) &&
    forall lane, lease | lane in lanes && LeaseOn(lane, lease, r) ::
      Structured(lease) && (Id(lease.holder.text) == Display(h) || Id(lease.holder.text) !in Ids(lanes))
  }

  ghost predicate OwnedBy(lane: Lane, path: seq<string>)
  {
    exists glob :: glob in PathsOf(lane) && Owns(glob, path)
  }

  lemma {:induction false} LeaseClaimFrom(lane: Lane, leases: seq<Lease>, r: string, c: Claim)
    ensures c in LeaseClaims(lane, leases, r) <==> exists lease | lease in leases :: c in OneClaim(lane, lease, r)
  {
    if leases != [] {
      var n := |leases| - 1;
      LeaseClaimFrom(lane, leases[..n], r, c);
      forall lease
        ensures lease in leases <==> lease in leases[..n] || lease == leases[n]
      {
        InFront(leases, lease);
      }
    }
  }

  lemma {:induction false} ClaimFrom(lanes: seq<Lane>, r: string, c: Claim)
    ensures c in LaneClaims(lanes, r) <==>
      exists lane | lane in lanes :: c in LeaseClaims(lane, ListOf(lane.leases), r)
  {
    if lanes != [] {
      var n := |lanes| - 1;
      ClaimFrom(lanes[..n], r, c);
      forall lane
        ensures lane in lanes <==> lane in lanes[..n] || lane == lanes[n]
      {
        InFront(lanes, lane);
      }
    }
  }

  /** Where the claims on a resource come from. */
  lemma ClaimExactly(lanes: seq<Lane>, r: string, c: Claim)
    ensures c in LaneClaims(lanes, r) <==>
      exists lane, lease :: lane in lanes && LeaseOn(lane, lease, r) && c == ClaimOf(lane, lease)
  {
    ClaimFrom(lanes, r, c);
    forall lane: Lane
      ensures c in LeaseClaims(lane, ListOf(lane.leases), r) <==>
              exists lease :: LeaseOn(lane, lease, r) && c == ClaimOf(lane, lease)
    {
      LeaseClaimFrom(lane, ListOf(lane.leases), r, c);
      if lease :| LeaseOn(lane, lease, r) && c == ClaimOf(lane, lease) {
        assert c in OneClaim(lane, lease, r);
      }
    }
  }

  lemma SameLane(lanes: seq<Lane>, a: Lane, b: Lane)
    requires Distinct(lanes) && a in lanes && b in lanes && Display(a) == Display(b)
    ensures a == b
  {
    var i :| 0 <= i < |lanes| && lanes[i] == a;
    var j :| 0 <= j < |lanes| && lanes[j] == b;
  }

  lemma LendsMeansDeclares(lanes: seq<Lane>, lane: Lane, r: string)
    requires Distinct(lanes) && lane in lanes && Lends(lanes, Display(lane), r)
    ensures Declares(lane, r)
  {
    var c :| c in LaneClaims(lanes, r) && c.declarer in Ids(lanes) && c.declarer == Display(lane);
    ClaimExactly(lanes, r, c);
    var other, lease :| other in lanes && LeaseOn(other, lease, r) && c == ClaimOf(other, lease);
    SameLane(lanes, lane, other);
    assert c.structured;
  }

  lemma IdsFrom(lanes: seq<Lane>, x: Id) returns (lane: Lane)
    requires x in Ids(lanes)
    ensures lane in lanes && Display(lane) == x
  {
    var k :| 0 <= k < |lanes| && HasId(lanes[k]) && x == Id(lanes[k].id.value);
    lane := lanes[k];
  }

  lemma GovernedMeansHeld(lanes: seq<Lane>, r: string) returns (h: Lane)
    requires Distinct(lanes) && Governed(LaneClaims(lanes, r), Ids(lanes))
    ensures HeldBy(lanes, r, h)
  {
    var claims, ids := LaneClaims(lanes, r), Ids(lanes);
    var x :| x in Holders(claims, ids);
    OnlyOne(Holders(claims, ids), x);
    h := IdsFrom(lanes, x);
    LendsMeansDeclares(lanes, h, r);
    forall lane, lease | lane in lanes && LeaseOn(lane, lease, r)
      ensures Structured(lease) && (Id(lease.holder.text) == x || Id(lease.holder.text) !in ids)
    {
      ClaimExactly(lanes, r, ClaimOf(lane, lease));
      assert ClaimOf(lane, lease) in claims;
      assert Id(lease.holder.text) in ids ==> Id(lease.holder.text) in Holders(claims, ids);
    }
  }

  lemma OwnedMeansOverlap(left: Lane, right: Lane, path: seq<string>, rules: Rules)
    requires LaneOk(left, rules) && LaneOk(right, rules) && OwnedBy(left, path) && OwnedBy(right, path)
    ensures Overlap(PathsOf(left), PathsOf(right))
  {
    var l :| l in PathsOf(left) && Owns(l, path);
    var r :| r in PathsOf(right) && Owns(r, path);
    SupportedPath(left, l, rules);
    SupportedPath(right, r, rules);
    OverlapNeverMisses(l, r, path, rules.unicode);
  }

  lemma SupportedPath(lane: Lane, glob: string, rules: Rules)
    requires PathsOk(lane, rules.unicode) && glob in PathsOf(lane)
    ensures Supported(glob, rules.unicode)
  {
    OwnedFrom(ListOf(lane.ownedPaths), glob);
    var k :| 0 <= k < |lane.ownedPaths.value| && lane.ownedPaths.value[k] == Str(glob);
    assert PathOk(lane.ownedPaths.value[k], rules.unicode);
  }

  /**
   * Ownership is disjoint up to leases: a concrete path that two lanes own, itself or through an ancestor,
   * is covered by a resource that both lanes lease and that exactly one lane of the plan holds.
   */
  lemma OwnershipDisjoint(plan: Plan, rules: Rules, i: nat, j: nat, path: seq<string>) returns (r: string, h: Lane)
    requires ValidButForCycles(plan, rules) && i < j < |LanesOf(ListOf(plan.lanes))|
    requires OwnedBy(LanesOf(ListOf(plan.lanes))[i], path) && OwnedBy(LanesOf(ListOf(plan.lanes))[j], path)
    ensures var lanes := LanesOf(ListOf(plan.lanes));
      Declares(lanes[i], r) && Declares(lanes[j], r) && HeldBy(lanes, r, h)
  {
    var lanes := LanesOf(ListOf(plan.lanes));
    assert LaneOk(lanes[i], rules) && LaneOk(lanes[j], rules);
    OwnedMeansOverlap(lanes[i], lanes[j], path, rules);
    assert Share(lanes, Display(lanes[i]), Display(lanes[j]));
    r :| Lends(lanes, Display(lanes[i]), r) && Lends(lanes, Display(lanes[j]), r);
    LendsMeansDeclares(lanes, lanes[i], r);
    LendsMeansDeclares(lanes, lanes[j], r);
    h := GovernedMeansHeld(lanes, r);
  }

  /** The claim names no lane as holder. */
  predicate Stray(c: Claim, ids: set<Id>)
  {
    c.holder.Str? ==> Id(c.holder.text) !in ids
  }

  /**
   Claims that name no lane as holder are ignored as long as another claim names one: they are faulted exactly when
   the other claims do not name a single holder, or when nobody, they included, declares the resource for it.
   */
  lemma StrayHolderIgnored(claims: seq<Claim>, strays: seq<Claim>, ids: set<Id>)
    requires forall c | c in strays :: Stray(c, ids)
    ensures Holders(claims + strays, ids) == Holders(claims, ids)
    ensures HeldWell(claims + strays, ids) <==>
      |Holders(claims, ids)| == 1 && Holders(claims, ids) <= Declarers(claims, ids) + Declarers(strays, ids)
    ensures HeldWell(claims, ids) ==> HeldWell(claims + strays, ids)
    ensures !HeldWell(strays, ids)
  {
    assert Holders(strays, ids) == {};
    assert Declarers(claims + strays, ids) == Declarers(claims, ids) + Declarers(strays, ids);
  }

  // ---------------------------------------------------------------- order and cycles

  lemma GraphOfLane(lanes: seq<Lane>, rules: Rules, lane: Lane)
    requires LanesOk(lanes, rules) && lane in lanes
    ensures HasId(lane) && Display(lane) in Ids(lanes) && Identifier(lane) == Display(lane)
    ensures DependsOn(Graph(lanes, Ids(lanes)), Display(lane)) == DependencySet(lane, Ids(lanes))
  {
    var i :| 0 <= i < |lanes| && lanes[i] == lane;
    assert LaneOk(lanes[i], rules);
    forall j | i < j < |lanes|
      ensures HasId(lanes[j]) && Display(lanes[j]) != Display(lanes[i])
    {
      assert LaneOk(lanes[j], rules);
    }
    GraphAt(lanes, Ids(lanes), i);
  }

  lemma NoSelfDependency(lanes: seq<Lane>, rules: Rules, x: Id)
    requires LanesOk(lanes, rules) && DependenciesKnown(lanes, Ids(lanes)) && x in Ids(lanes)
    ensures x !in DependsOn(Graph(lanes, Ids(lanes)), x)
  {
    var lane := IdsFrom(lanes, x);
    GraphOfLane(lanes, rules, lane);
    var k :| 0 <= k < |lanes| && lanes[k] == lane;
    assert LaneKnown(lanes[k], Ids(lanes));
    KnownMeansOther(ListOf(lanes[k].dependsOn), Ids(lanes), Identifier(lanes[k]));
  }

  lemma KnownMeansOther(items: seq<Item>, ids: set<Id>, self: Id)
    requires AllKnown(items, ids, self)
    ensures forall item | item in items :: item.Str? && Id(item.text) != self
  {
    forall item | item in items
      ensures item.Str? && Id(item.text) != self
    {
      var k :| 0 <= k < |items| && items[k] == item;
      assert Known(items[k], ids, self);
    }
  }

  /** For distinct, well-formed lanes the order check is the graph-theoretic one. */
  lemma OrderOkExactly(lanes: seq<Lane>, rules: Rules, order: Field<seq<Item>>)
    requires LanesOk(lanes, rules) && DependenciesKnown(lanes, Ids(lanes))
    ensures OrderOk(lanes, Ids(lanes), order) <==>
      Listed(order, Ids(lanes)) && Topological(Graph(lanes, Ids(lanes)), Ids(lanes), Names(order.value))
  {
    var ids := Ids(lanes);
    var g := Graph(lanes, ids);
    forall x | x in ids
      ensures x !in DependsOn(g, x)
    {
      NoSelfDependency(lanes, rules, x);
    }
    if Listed(order, ids) {
      var names := Names(order.value);
      AcceptedMeansTopological(g, ids, names);
      if OrderOk(lanes, ids, order) {
        PlacedMeansAccepted(lanes, rules, names);
      }
      if AcceptedOrder(g, ids, names) {
        forall k | 0 <= k < |lanes|
          ensures LanePlaced(lanes[k], ids, names)
        {
          GraphOfLane(lanes, rules, lanes[k]);
        }
      }
    }
  }

  lemma PlacedMeansAccepted(lanes: seq<Lane>, rules: Rules, names: seq<Id>)
    requires LanesOk(lanes, rules) && NoDup(names) && Elements(names) == Ids(lanes)
    requires AllPlaced(lanes, Ids(lanes), names)
    ensures AcceptedOrder(Graph(lanes, Ids(lanes)), Ids(lanes), names)
  {
    var g := Graph(lanes, Ids(lanes));
    forall x, d | x in names && d in DependsOn(g, x) && d in names
      ensures Position(names, d) <= Position(names, x)
    {
      PlacedBefore(lanes, rules, names, x, d);
    }
  }

  lemma PlacedBefore(lanes: seq<Lane>, rules: Rules, names: seq<Id>, x: Id, d: Id)
    requires LanesOk(lanes, rules) && Elements(names) == Ids(lanes) && AllPlaced(lanes, Ids(lanes), names)
    requires x in names && d in DependsOn(Graph(lanes, Ids(lanes)), x) && d in names
    ensures Position(names, d) <= Position(names, x)
  {
    assert x in Elements(names);
    var lane := IdsFrom(lanes, x);
    GraphOfLane(lanes, rules, lane);
    PlacedLane(lanes, Ids(lanes), names, lane, x, d);
  }

  lemma PlacedLane(lanes: seq<Lane>, ids: set<Id>, names: seq<Id>, lane: Lane, x: Id, d: Id)
    requires AllPlaced(lanes, ids, names) && lane in lanes && HasId(lane) && Display(lane) == x && x in ids
    requires x in names && d in DependencySet(lane, ids) && d in names
    ensures Position(names, d) <= Position(names, x)
  {
    var k :| 0 <= k < |lanes| && lanes[k] == lane;
    assert LanePlaced(lanes[k], ids, names);
  }

  /** The order check implies the cycle check: an otherwise valid plan has no cycle, and its order is topological. */
  lemma OrderImpliesAcyclic(plan: Plan, rules: Rules)
    requires ValidButForCycles(plan, rules)
    ensures Acyclic(plan)
    ensures var lanes := LanesOf(ListOf(plan.lanes));
      Topological(Graph(lanes, Ids(lanes)), Ids(lanes), Names(plan.integrationOrder.value))
  {
    var lanes := LanesOf(ListOf(plan.lanes));
    OrderOkExactly(lanes, rules, plan.integrationOrder);
    TopologicalAcyclic(Graph(lanes, Ids(lanes)), Ids(lanes), Names(plan.integrationOrder.value));
  }

  function Items(order: seq<Id>): (items: seq<Item>)
    ensures |items| == |order| && forall i | 0 <= i < |order| :: items[i] == Str(order[i].name)
  {
    seq(|order|, i requires 0 <= i < |order| => Str(order[i].name))
  }

  /** Conversely, the sequence in which the cycle check processes an acyclic plan is an acceptable order. */
  lemma ProcessingOrderAccepted(lanes: seq<Lane>, rules: Rules, queue: seq<Id>)
    requires LanesOk(lanes, rules) && DependenciesKnown(lanes, Ids(lanes))
    requires Topological(Graph(lanes, Ids(lanes)), Ids(lanes), queue)
    ensures OrderOk(lanes, Ids(lanes), Given(Items(queue)))
  {
    assert Names(Items(queue)) == queue;
    OrderOkExactly(lanes, rules, Given(Items(queue)));
  }
}
