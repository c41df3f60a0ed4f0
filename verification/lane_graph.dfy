/** The dependency graph of parallel lanes: Kahn's algorithm, cycles and topological orders. */
module LaneGraph {
  import opened Text

  // ---------------------------------------------------------------- sequences without repetition

  function Elements<T>(s: seq<T>): set<T>
  {
    set x | x in s
  }

  /** No value stands twice. */
  ghost predicate NoDup<T>(s: seq<T>)
  {
    |Elements(s)| == |s|
  }

  lemma ElementsAppend<T>(s: seq<T>, x: T)
    ensures Elements(s + [x]) == Elements(s) + {x}
  {
  }

  lemma {:induction false} ElementsSize<T>(s: seq<T>)
    ensures |Elements(s)| <= |s|
  {
    if s != [] {
      var n := |s| - 1;
      ElementsSize(s[..n]);
      ElementsAppend(s[..n], s[n]);
      assert s == s[..n] + [s[n]];
    }
  }

  lemma NoDupAppend<T>(s: seq<T>, x: T)
    ensures NoDup(s + [x]) <==> NoDup(s) && x !in s
  {
    ElementsSize(s);
    ElementsAppend(s, x);
  }

  lemma {:induction false} NoDupPrefix<T>(s: seq<T>, n: nat)
    requires NoDup(s) && n <= |s|
    ensures NoDup(s[..n])
    decreases |s|
  {
    if n < |s| {
      var m := |s| - 1;
      assert s == s[..m] + [s[m]];
      NoDupAppend(s[..m], s[m]);
      NoDupPrefix(s[..m], n);
      assert s[..m][..n] == s[..n];
    } else {
      assert s[..n] == s;
    }
  }

  lemma NoDupNext<T>(s: seq<T>, n: nat)
    requires NoDup(s) && n < |s|
    ensures s[n] !in s[..n]
  {
    NoDupPrefix(s, n + 1);
    assert s[..n + 1] == s[..n] + [s[n]];
    NoDupAppend(s[..n], s[n]);
  }

  /** The definition by positions. */
  lemma NoDupExactly<T>(s: seq<T>)
    ensures NoDup(s) <==> forall i, j | 0 <= i < j < |s| :: s[i] != s[j]
  {
    if NoDup(s) {
      forall i, j | 0 <= i < j < |s|
        ensures s[i] != s[j]
      {
        NoDupNext(s, j);
        assert s[..j][i] == s[i];
      }
    }
    if forall i, j | 0 <= i < j < |s| :: s[i] != s[j] {
      DistinctPrefix(s, |s|);
      assert s[..|s|] == s;
    }
  }

  lemma {:induction false} DistinctPrefix<T>(s: seq<T>, n: nat)
    requires n <= |s| && forall i, j | 0 <= i < j < |s| :: s[i] != s[j]
    ensures NoDup(s[..n])
  {
    if n > 0 {
      DistinctPrefix(s, n - 1);
      assert s[..n] == s[..n - 1] + [s[n - 1]];
      NoDupAppend(s[..n - 1], s[n - 1]);
    }
  }

  lemma SubsetSize<T>(a: set<T>, b: set<T>)
    requires a <= b
    ensures |a| <= |b|
    ensures |a| == |b| ==> a == b
  {
    assert b == a + (b - a);
    if |a| == |b| {
      assert |b - a| == 0;
    }
  }

  /** More positions than values: some value stands twice. */
  lemma Repeats<T>(p: seq<T>, u: set<T>) returns (i: nat, j: nat)
    requires |p| > |u| && forall k | 0 <= k < |p| :: p[k] in u
    ensures i < j < |p| && p[i] == p[j]
  {
    SubsetSize(Elements(p), u);
    NoDupExactly(p);
    i, j :| 0 <= i < j < |p| && p[i] == p[j];
  }

  // ---------------------------------------------------------------- graphs

  /** The identifier of a lane. */
  datatype Id = Id(name: string)

  /** For each lane the lanes it depends on. */
  type Dependencies = map<Id, set<Id>>

  function DependsOn(g: Dependencies, x: Id): set<Id>
  {
    if x in g then g[x] else {}
  }

  ghost predicate Within(g: Dependencies, ids: set<Id>)
  {
    g.Keys <= ids && forall x | x in g :: g[x] <= ids
  }

  /** Each lane of the walk depends on the next one. */
  ghost predicate Walk(g: Dependencies, p: seq<Id>)
  {
    forall i | 0 <= i < |p| - 1 :: p[i + 1] in DependsOn(g, p[i])
  }

  ghost predicate IsCycle(g: Dependencies, p: seq<Id>)
  {
    |p| >= 2 && Walk(g, p) && p[0] == p[|p| - 1]
  }

  /** A directed cycle; a lane that depends on itself is one. */
  ghost predicate HasCycle(g: Dependencies)
  {
    exists p :: IsCycle(g, p)
  }

  /** The lane at position `i` comes after all lanes it depends on. */
  ghost predicate Placed(g: Dependencies, order: seq<Id>, i: nat)
    requires i < |order|
  {
    forall d | d in DependsOn(g, order[i]) :: d in order[..i]
  }

  ghost predicate DependenciesFirst(g: Dependencies, order: seq<Id>)
  {
    forall i | 0 <= i < |order| :: Placed(g, order, i)
  }

  lemma PlacedLonger(g: Dependencies, order: seq<Id>, longer: seq<Id>, i: nat)
    requires order <= longer && i < |order| && Placed(g, order, i)
    ensures Placed(g, longer, i)
  {
    assert longer[..i] == order[..i];
  }

  /** Every lane once, dependencies first. */
  ghost predicate Topological(g: Dependencies, ids: set<Id>, order: seq<Id>)
  {
    NoDup(order) && Elements(order) == ids && DependenciesFirst(g, order)
  }

  ghost function Position(order: seq<Id>, x: Id): (n: nat)
    requires x in order
    ensures n < |order| && order[n] == x
  {
    var n :| 0 <= n < |order| && order[n] == x;
    n
  }

  lemma PositionAt(order: seq<Id>, i: nat)
    requires NoDup(order) && i < |order|
    ensures Position(order, order[i]) == i
  {
    NoDupExactly(order);
  }

  lemma {:induction false} WalkGoesBack(g: Dependencies, order: seq<Id>, p: seq<Id>)
    requires NoDup(order) && DependenciesFirst(g, order) && Walk(g, p) && p != [] && p[0] in order
    ensures forall i | 0 <= i < |p| :: p[i] in order && Position(order, p[i]) + i <= Position(order, p[0])
  {
    if |p| > 1 {
      var n := |p| - 1;
      WalkGoesBack(g, order, p[..n]);
      var k := Position(order, p[n - 1]);
      assert p[n - 1] == p[..n][n - 1] && p[n] in DependsOn(g, order[k]);
      assert Placed(g, order, k);
      var m :| 0 <= m < k && order[m] == p[n];
      PositionAt(order, m);
    }
  }

  /** A topological order rules out every cycle. */
  lemma TopologicalAcyclic(g: Dependencies, ids: set<Id>, order: seq<Id>)
    requires Within(g, ids) && Topological(g, ids, order)
    ensures !HasCycle(g)
  {
    forall p | IsCycle(g, p)
      ensures false
    {
      assert p[1] in DependsOn(g, p[0]);
      assert p[0] in ids;
      WalkGoesBack(g, order, p);
    }
  }

  /** Everyone in the set depends on someone in the set. */
  ghost predicate Stuck(g: Dependencies, u: set<Id>)
  {
    u != {} && forall x | x in u :: Meets(g, u, x)
  }

  ghost predicate Meets(g: Dependencies, u: set<Id>, x: Id)
  {
    DependsOn(g, x) * u != {}
  }

  lemma NextStep(g: Dependencies, u: set<Id>, x: Id) returns (y: Id)
    requires Stuck(g, u) && x in u
    ensures y in u && y in DependsOn(g, x)
  {
    var next := DependsOn(g, x) * u;
    assert Meets(g, u, x);
    y :| y in next;
  }

  /** In a stuck set one can walk as far as one likes. */
  lemma {:induction false} LongWalk(g: Dependencies, u: set<Id>, n: nat) returns (p: seq<Id>)
    requires Stuck(g, u)
    ensures |p| == n + 1 && Walk(g, p) && forall i | 0 <= i < |p| :: p[i] in u
  {
    if n == 0 {
      var x :| x in u;
      p := [x];
    } else {
      var q := LongWalk(g, u, n - 1);
      var y := NextStep(g, u, q[n - 1]);
      p := q + [y];
    }
  }

  lemma StuckMeansCycle(g: Dependencies, u: set<Id>)
    requires Stuck(g, u)
    ensures HasCycle(g)
  {
    var p := LongWalk(g, u, |u|);
    var i, j := Repeats(p, u);
    var q := p[i..j + 1];
    forall k | 0 <= k < |q| - 1
      ensures q[k + 1] in DependsOn(g, q[k])
    {
      assert q[k] == p[i + k] && q[k + 1] == p[i + k + 1];
    }
    assert IsCycle(g, q);
  }

  // ---------------------------------------------------------------- Kahn's algorithm

  function SortedIds(ids: set<Id>): (s: seq<Id>)
    ensures NoDup(s) && Elements(s) == ids
  {
    FromStringInjectiveAll();
    var s := Sorted(ids, (id: Id) => FromString(id.name));
    NoDupExactly(s);
    s
  }

  /** The lanes of `done` that depend on `y`. */
  ghost function DependentsAmong(g: Dependencies, done: set<Id>, y: Id): set<Id>
  {
    set x | x in done && y in DependsOn(g, x)
  }

  /** For each lane the lanes of `done` that depend on it. */
  ghost predicate Recorded(g: Dependencies, ids: set<Id>, done: set<Id>, dependents: map<Id, set<Id>>)
  {
    dependents.Keys == ids && forall y {:trigger dependents[y]} | y in ids :: dependents[y] == DependentsAmong(g, done, y)
  }

  /** Some dependencies of `x` are recorded as well. */
  ghost predicate Recording(g: Dependencies, ids: set<Id>, done: set<Id>, x: Id, recorded: set<Id>, dependents: map<Id, set<Id>>)
  {
    dependents.Keys == ids &&
    forall y {:trigger dependents[y]} | y in ids ::
      dependents[y] == DependentsAmong(g, done, y) + (if y in recorded then {x} else {})
  }

  ghost predicate Parts(done: set<Id>, todo: set<Id>, all: set<Id>)
  {
    done + todo == all && done !! todo
  }

  lemma MovePart(done: set<Id>, todo: set<Id>, all: set<Id>, x: Id)
    requires Parts(done, todo, all) && x in todo
    ensures Parts(done + {x}, todo - {x}, all) && x in all
  {
    assert done + {x} + (todo - {x}) == all;
  }

  lemma RecordingOne(g: Dependencies, ids: set<Id>, done: set<Id>, x: Id, recorded: set<Id>,
                     dependents: map<Id, set<Id>>, y: Id)
    requires Recording(g, ids, done, x, recorded, dependents) && y in ids && y !in recorded
    ensures Recording(g, ids, done, x, recorded + {y}, dependents[y := dependents[y] + {x}])
  {
  }

  /** Records, for each lane, the lanes that depend on it. */
  method Dependents(g: Dependencies, ids: set<Id>) returns (dependents: map<Id, set<Id>>)
    requires Within(g, ids)
    ensures Recorded(g, ids, ids, dependents)
  {
    dependents := map y | y in ids :: {};
    var todo := g.Keys;
    ghost var done := {};
    while todo != {}
      invariant Parts(done, todo, g.Keys) && Recorded(g, ids, done, dependents)
    {
      var x :| x in todo;
      var targets := g[x];
      ghost var recorded := {};
      while targets != {}
        invariant Parts(recorded, targets, g[x]) && Recording(g, ids, done, x, recorded, dependents)
      {
        var y :| y in targets;
        MovePart(recorded, targets, g[x], y);
        RecordingOne(g, ids, done, x, recorded, dependents, y);
        targets, recorded := targets - {y}, recorded + {y};
        dependents := dependents[y := dependents[y] + {x}];
      }
      RecordedAll(g, ids, done, x, dependents);
      MovePart(done, todo, g.Keys, x);
      todo, done := todo - {x}, done + {x};
    }
    RecordedIds(g, ids, done, dependents);
  }

  lemma RecordedAll(g: Dependencies, ids: set<Id>, done: set<Id>, x: Id, dependents: map<Id, set<Id>>)
    requires x in g && Recording(g, ids, done, x, g[x], dependents)
    ensures Recorded(g, ids, done + {x}, dependents)
  {
  }

  lemma RecordedIds(g: Dependencies, ids: set<Id>, done: set<Id>, dependents: map<Id, set<Id>>)
    requires Within(g, ids) && g.Keys == done && Recorded(g, ids, done, dependents)
    ensures Recorded(g, ids, ids, dependents)
  {
    forall y
      ensures DependentsAmong(g, done, y) == DependentsAmong(g, ids, y)
    {
    }
  }

  /** For each lane the dependencies it still waits for. */
  type Pending = map<Id, set<Id>>

  /** Every lane waits for exactly its dependencies outside `done`. */
  ghost predicate Waiting(g: Dependencies, ids: set<Id>, done: set<Id>, pending: Pending)
  {
    pending.Keys == ids && forall x {:trigger pending[x]} | x in ids :: pending[x] == DependsOn(g, x) - done
  }

  ghost predicate Counts(pending: Pending, remaining: map<Id, int>)
  {
    pending.Keys == remaining.Keys && forall x {:trigger remaining[x]} {:trigger pending[x]} | x in pending :: remaining[x] == |pending[x]|
  }

  /** The queue holds, once, exactly the lanes that wait for nothing. */
  ghost predicate Queued(pending: Pending, queue: seq<Id>)
  {
    NoDup(queue) && Elements(queue) == Idle(pending)
  }

  ghost function Idle(pending: Pending): set<Id>
  {
    set x | x in pending && pending[x] == {}
  }

  /** The first `k` lanes of the queue are those in `done`, dependencies first. */
  ghost predicate Processed(g: Dependencies, queue: seq<Id>, k: nat, done: set<Id>)
  {
    k <= |queue| && Elements(queue[..k]) == done && forall i | 0 <= i < k :: Placed(g, queue, i)
  }

  /** `x` no longer waits for `id`; when it waits for nothing else, it joins the queue. */
  lemma TellOne(pending: Pending, queue: seq<Id>, remaining: map<Id, int>, id: Id, x: Id)
    requires Counts(pending, remaining) && Queued(pending, queue)
    requires x in pending && id in pending[x]
    ensures var next := remaining[x := remaining[x] - 1];
      Counts(pending[x := pending[x] - {id}], next) &&
      Queued(pending[x := pending[x] - {id}], if next[x] == 0 then queue + [x] else queue)
  {
    assert pending[x] == pending[x] - {id} + {id};
    QueuedOne(pending, queue, id, x);
  }

  lemma QueuedOne(pending: Pending, queue: seq<Id>, id: Id, x: Id)
    requires Queued(pending, queue) && x in pending && id in pending[x]
    ensures Queued(pending[x := pending[x] - {id}], if |pending[x] - {id}| == 0 then queue + [x] else queue)
  {
    IdleOne(pending, id, x);
    if |pending[x] - {id}| == 0 {
      assert x !in Elements(queue);
      NoDupAppend(queue, x);
      ElementsAppend(queue, x);
    }
  }

  lemma IdleOne(pending: Pending, id: Id, x: Id)
    requires x in pending && id in pending[x]
    ensures x !in Idle(pending)
    ensures Idle(pending[x := pending[x] - {id}]) == Idle(pending) + if |pending[x] - {id}| == 0 then {x} else {}
  {
    var after := pending[x := pending[x] - {id}];
    assert |after[x]| == 0 <==> after[x] == {};
    forall y
      ensures y in Idle(after) <==> y in Idle(pending) || (y == x && after[x] == {})
    {
    }
  }

  lemma ProcessedNext(g: Dependencies, queue: seq<Id>, k: nat, done: set<Id>)
    requires Processed(g, queue, k, done) && k < |queue| && DependsOn(g, queue[k]) <= done
    ensures Processed(g, queue, k + 1, done + {queue[k]})
  {
    assert queue[..k + 1] == queue[..k] + [queue[k]];
    ElementsAppend(queue[..k], queue[k]);
    forall d | d in DependsOn(g, queue[k])
      ensures d in queue[..k]
    {
      assert d in Elements(queue[..k]);
    }
    assert Placed(g, queue, k);
  }

  lemma ProcessedLonger(g: Dependencies, queue: seq<Id>, longer: seq<Id>, k: nat, done: set<Id>)
    requires Processed(g, queue, k, done) && queue <= longer
    ensures Processed(g, longer, k, done)
  {
    assert longer[..k] == queue[..k];
    forall i | 0 <= i < k
      ensures Placed(g, longer, i)
    {
      PlacedLonger(g, queue, longer, i);
    }
  }

  /** The next lane of the queue is not done yet, and everything it depends on is. */
  lemma NextReady(g: Dependencies, ids: set<Id>, queue: seq<Id>, k: nat, done: set<Id>, pending: Pending)
    requires Waiting(g, ids, done, pending) && Queued(pending, queue) && Processed(g, queue, k, done) && k < |queue|
    ensures k < |ids| && queue[k] in ids && queue[k] !in done && DependsOn(g, queue[k]) <= done
    ensures forall x | x in DependentsAmong(g, ids, queue[k]) :: x in pending && queue[k] in pending[x]
  {
    var id := queue[k];
    assert id in Elements(queue);
    assert pending[id] == {};
    forall d | d in DependsOn(g, id)
      ensures d in done
    {
      assert d !in pending[id];
    }
    NoDupNext(queue, k);
    assert id !in Elements(queue[..k]);
    assert Elements(queue) <= ids;
    SubsetSize(Elements(queue), ids);
  }

  /** When the queue is exhausted, the lanes outside it all wait for one another. */
  lemma RestStuck(g: Dependencies, ids: set<Id>, queue: seq<Id>, done: set<Id>, pending: Pending)
    requires Within(g, ids) && Waiting(g, ids, done, pending) && Queued(pending, queue)
    requires Elements(queue) == done && done != ids
    ensures Stuck(g, ids - done)
  {
    forall x | x in ids - done
      ensures Meets(g, ids - done, x)
    {
      assert x !in Elements(queue);
      var y :| y in pending[x];
      assert y in DependsOn(g, x) * (ids - done);
    }
    assert ids == done + (ids - done);
  }

  /** When the queue is exhausted, it holds all lanes exactly when there is no cycle. */
  lemma Verdict(g: Dependencies, ids: set<Id>, queue: seq<Id>, done: set<Id>, pending: Pending)
    requires Within(g, ids) && Waiting(g, ids, done, pending) && Queued(pending, queue)
    requires Processed(g, queue, |queue|, done)
    ensures |queue| != |ids| <==> HasCycle(g)
    ensures |queue| == |ids| ==> Topological(g, ids, queue)
    ensures NoDup(queue) && Elements(queue) <= ids && DependenciesFirst(g, queue)
    ensures |queue| != |ids| ==> Stuck(g, ids - Elements(queue))
  {
    assert queue[..|queue|] == queue;
    SubsetSize(done, ids);
    if |queue| == |ids| {
      TopologicalAcyclic(g, ids, queue);
    } else {
      RestStuck(g, ids, queue, done, pending);
      StuckMeansCycle(g, ids - done);
    }
  }

  /** The lanes in `told` no longer wait for `id`. */
  ghost predicate Told(before: Pending, after: Pending, told: set<Id>, id: Id)
  {
    before.Keys == after.Keys &&
    forall x {:trigger after[x]} | x in before :: after[x] == if x in told then before[x] - {id} else before[x]
  }

  lemma StillWaits(before: Pending, after: Pending, told: set<Id>, id: Id, x: Id)
    requires Told(before, after, told, id) && x !in told && x in before && id in before[x]
    ensures x in after && id in after[x]
  {
  }

  lemma ToldOne(before: Pending, after: Pending, told: set<Id>, id: Id, x: Id)
    requires Told(before, after, told, id) && x in before && x !in told
    ensures Told(before, after[x := after[x] - {id}], told + {x}, id)
  {
  }

  /** Once all its dependents are told, `id` is done. */
  lemma ToldAll(g: Dependencies, ids: set<Id>, done: set<Id>, before: Pending, after: Pending, id: Id)
    requires Waiting(g, ids, done, before) && Told(before, after, DependentsAmong(g, ids, id), id)
    ensures Waiting(g, ids, done + {id}, after)
  {
    forall x | x in ids
      ensures after[x] == DependsOn(g, x) - (done + {id})
    {
    }
  }

  lemma NextTold(tell: seq<Id>, n: nat)
    requires NoDup(tell) && n < |tell|
    ensures tell[n] in Elements(tell) && tell[n] !in Elements(tell[..n])
    ensures Elements(tell[..n + 1]) == Elements(tell[..n]) + {tell[n]}
  {
    NoDupNext(tell, n);
    assert tell[..n + 1] == tell[..n] + [tell[n]];
  }

  /** The ghost side of telling the `n`-th dependent. */
  lemma TellNext(before: Pending, after: Pending, queue: seq<Id>, remaining: map<Id, int>, tell: seq<Id>, n: nat, id: Id)
    requires NoDup(tell) && n < |tell| && forall x | x in Elements(tell) :: x in before && id in before[x]
    requires Counts(after, remaining) && Queued(after, queue) && Told(before, after, Elements(tell[..n]), id)
    ensures tell[n] in remaining
    ensures var x := tell[n];
      var next := remaining[x := remaining[x] - 1];
      var waiting := after[x := after[x] - {id}];
      Counts(waiting, next) && Queued(waiting, if next[x] == 0 then queue + [x] else queue) &&
      Told(before, waiting, Elements(tell[..n + 1]), id)
  {
    var x := tell[n];
    NextTold(tell, n);
    StillWaits(before, after, Elements(tell[..n]), id, x);
    TellOne(after, queue, remaining, id, x);
    ToldOne(before, after, Elements(tell[..n]), id, x);
  }

  lemma SuffixAppend(queue: seq<Id>, queue': seq<Id>, m: nat, x: Id)
    requires queue <= queue' && m <= |queue|
    ensures queue'[m..] + [x] == (queue' + [x])[m..] && queue <= queue' + [x]
  {
  }

  lemma ToldNone(pending: Pending, id: Id)
    ensures Told(pending, pending, {}, id)
  {
  }

  /** Tells every lane that waits for `id`; those that wait for nothing else become ready. */
  method Tell(dependents: set<Id>, id: Id, remaining: map<Id, int>, ready: seq<Id>,
              ghost pending: Pending, ghost queue: seq<Id>, ghost m: nat)
    returns (remaining': map<Id, int>, ready': seq<Id>, ghost pending': Pending, ghost queue': seq<Id>)
    requires Counts(pending, remaining) && Queued(pending, queue) && m <= |queue| && ready == queue[m..]
    requires forall x | x in dependents :: x in pending && id in pending[x]
    ensures Counts(pending', remaining') && Queued(pending', queue') && Told(pending, pending', dependents, id)
    ensures queue <= queue' && ready' == queue'[m..]
  {
    hide Queued, Idle, NoDup, Told, SortedIds;
    remaining', ready', pending', queue' := remaining, ready, pending, queue;
    var tell := SortedIds(dependents);
    ToldNone(pending, id);
    assert Elements(tell[..0]) == {};
    for n := 0 to |tell|
      invariant Counts(pending', remaining') && Queued(pending', queue') && Told(pending, pending', Elements(tell[..n]), id)
      invariant queue <= queue' && ready' == queue'[m..]
    {
      var x := tell[n];
      TellNext(pending, pending', queue', remaining', tell, n, id);
      pending' := pending'[x := pending'[x] - {id}];
      remaining' := remaining'[x := remaining'[x] - 1];
      if remaining'[x] == 0 {
        SuffixAppend(queue, queue', m, x);
        ready', queue' := ready' + [x], queue' + [x];
      }
    }
    assert tell[..|tell|] == tell;
  }

  lemma Start(g: Dependencies, ids: set<Id>, pending: Pending, remaining: map<Id, int>, queue: seq<Id>)
    requires pending == (map x | x in ids :: DependsOn(g, x)) && remaining == map x | x in ids :: |DependsOn(g, x)|
    requires NoDup(queue) && Elements(queue) == set x | x in ids && remaining[x] == 0
    ensures Waiting(g, ids, {}, pending) && Counts(pending, remaining) && Queued(pending, queue)
    ensures Processed(g, queue, 0, {})
  {
  }

  /** The ghost side of processing the next lane of the queue. */
  lemma Advance(g: Dependencies, ids: set<Id>, queue: seq<Id>, queue': seq<Id>, k: nat, done: set<Id>,
                before: Pending, after: Pending)
    requires Waiting(g, ids, done, before) && Queued(before, queue) && Processed(g, queue, k, done)
    requires k < |queue| && queue <= queue' && Told(before, after, DependentsAmong(g, ids, queue[k]), queue[k])
    ensures Waiting(g, ids, done + {queue[k]}, after) && Processed(g, queue', k + 1, done + {queue[k]})
  {
    NextReady(g, ids, queue, k, done, before);
    ToldAll(g, ids, done, before, after, queue[k]);
    ProcessedLonger(g, queue, queue', k, done);
    ProcessedNext(g, queue', k, done);
  }

  /** The state of the algorithm after `k` lanes. */
  ghost predicate Consistent(g: Dependencies, ids: set<Id>, pending: Pending, remaining: map<Id, int>,
                             queue: seq<Id>, k: nat, done: set<Id>)
  {
    Waiting(g, ids, done, pending) && Counts(pending, remaining) && Queued(pending, queue) && Processed(g, queue, k, done)
  }

  /** Processes the first lane that is ready. */
  method Process(g: Dependencies, ids: set<Id>, dependents: map<Id, set<Id>>, remaining: map<Id, int>, ready: seq<Id>,
                 ghost pending: Pending, ghost queue: seq<Id>, ghost k: nat, ghost done: set<Id>)
    returns (remaining': map<Id, int>, ready': seq<Id>, ghost pending': Pending, ghost queue': seq<Id>, ghost done': set<Id>)
    requires Recorded(g, ids, ids, dependents)
    requires Consistent(g, ids, pending, remaining, queue, k, done) && k < |queue| && ready == queue[k..]
    ensures k < |ids| && Consistent(g, ids, pending', remaining', queue', k + 1, done') && ready' == queue'[k + 1..]
    ensures queue <= queue'
  {
    var id := ready[0];
    NextReady(g, ids, queue, k, done, pending);
    remaining', ready', pending', queue' := Tell(dependents[id], id, remaining, ready[1..], pending, queue, k + 1);
    Advance(g, ids, queue, queue', k, done, pending, pending');
    done' := done + {id};
  }

  /** Taking the first ready lane; the lanes taken and the ready ones make up the queue. */
  lemma TakeNext(order: seq<Id>, ready: seq<Id>, ready': seq<Id>, queue: seq<Id>, queue': seq<Id>)
    requires ready != [] && order + ready == queue && queue <= queue' && ready' == queue'[|order| + 1..]
    ensures order + [ready[0]] + ready' == queue'
  {
    assert queue[..|order| + 1] == order + [ready[0]];
  }

  /** Takes ready lanes until none is left. */
  method Drain(g: Dependencies, ids: set<Id>, dependents: map<Id, set<Id>>, remaining: map<Id, int>, ready: seq<Id>,
               ghost pending: Pending)
    returns (order: seq<Id>, ghost pending': Pending, ghost done: set<Id>)
    requires Recorded(g, ids, ids, dependents) && Consistent(g, ids, pending, remaining, ready, 0, {})
    ensures Waiting(g, ids, done, pending') && Queued(pending', order) && Processed(g, order, |order|, done)
  {
    var rest, left := ready, remaining;
    ghost var queue := ready;
    order, pending', done := [], pending, {};
    while rest != []
      invariant Consistent(g, ids, pending', left, queue, |order|, done) && order + rest == queue
      decreases |ids| - |order|
    {
      assert queue[|order|..] == rest;
      ghost var before := queue;
      var id, now := rest[0], rest;
      left, rest, pending', queue, done := Process(g, ids, dependents, left, rest, pending', queue, |order|, done);
      TakeNext(order, now, rest, before, queue);
      order := order + [id];
    }
    assert order == queue;
  }

  /** Whether the dependencies have a cycle; `order` is the sequence in which lanes were taken from the queue. */
  method FindCycle(g: Dependencies, ids: set<Id>) returns (cyclic: bool, order: seq<Id>)
    requires Within(g, ids)
    ensures cyclic <==> HasCycle(g)
    ensures NoDup(order) && Elements(order) <= ids && DependenciesFirst(g, order)
    ensures !cyclic ==> Topological(g, ids, order)
    ensures cyclic ==> |order| != |ids| && Stuck(g, ids - Elements(order))
  {
    var dependents := Dependents(g, ids);
    var remaining := map x | x in ids :: |DependsOn(g, x)|;
    var ready := SortedIds(set x | x in ids && remaining[x] == 0);
    ghost var pending, done := map x | x in ids :: DependsOn(g, x), {};
    Start(g, ids, pending, remaining, ready);
    order, pending, done := Drain(g, ids, dependents, remaining, ready, pending);
    cyclic := |order| != |ids|;
    Verdict(g, ids, order, done, pending);
  }

  // ---------------------------------------------------------------- integration orders

  /** An integration order as the validator accepts it: every lane once, no lane before one it depends on. */
  ghost predicate AcceptedOrder(g: Dependencies, ids: set<Id>, order: seq<Id>)
  {
    NoDup(order) && Elements(order) == ids &&
    forall x, d | x in order && d in DependsOn(g, x) && d in order :: Position(order, d) <= Position(order, x)
  }

  /** Acceptance tolerates a lane that depends on itself, and nothing else that a topological order forbids. */
  lemma AcceptedMeansTopological(g: Dependencies, ids: set<Id>, order: seq<Id>)
    requires Within(g, ids) && forall x | x in ids :: x !in DependsOn(g, x)
    ensures AcceptedOrder(g, ids, order) <==> Topological(g, ids, order)
  {
    if AcceptedOrder(g, ids, order) {
      forall i, d | 0 <= i < |order| && d in DependsOn(g, order[i])
        ensures d in order[..i]
      {
        assert order[i] in Elements(order) && d in Elements(order);
        PositionAt(order, i);
        assert order[..i][Position(order, d)] == d;
      }
      assert forall i | 0 <= i < |order| :: Placed(g, order, i);
    }
    if Topological(g, ids, order) {
      forall x, d | x in order && d in DependsOn(g, x) && d in order
        ensures Position(order, d) <= Position(order, x)
      {
        var i := Position(order, x);
        assert Placed(g, order, i);
        var j :| 0 <= j < i && order[j] == d;
        PositionAt(order, j);
      }
    }
  }

  /** The order check and the cycle check agree: without self-dependencies an order is acceptable exactly when there is no cycle. */
  lemma OrderExistsExactly(g: Dependencies, ids: set<Id>, queue: seq<Id>)
    requires Within(g, ids) && (forall x | x in ids :: x !in DependsOn(g, x))
    requires !HasCycle(g) ==> Topological(g, ids, queue)
    ensures (exists order :: AcceptedOrder(g, ids, order)) <==> !HasCycle(g)
    ensures !HasCycle(g) ==> AcceptedOrder(g, ids, queue)
  {
    AcceptedMeansTopological(g, ids, queue);
    if order :| AcceptedOrder(g, ids, order) {
      AcceptedMeansTopological(g, ids, order);
      TopologicalAcyclic(g, ids, order);
    }
  }
}
