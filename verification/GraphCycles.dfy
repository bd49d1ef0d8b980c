/** Cycle detection: the depth-first search of the graph validator, with its
    shared `visiting` and `visited` sets, decides exactly whether the edges
    contain a non-empty closed path. */
module GraphCycles {
  import opened Prelude

  /** Member identifiers, modelled by their rank in the order of strings. */
  type Id = nat

  /** One canonical directed pair: subject depends on target. */
  datatype Pair = Pair(subject: Id, target: Id)

  ghost predicate StepAt(pairs: seq<Pair>, p: seq<Id>, i: int) {
    0 <= i < |p| - 1 && Pair(p[i], p[i + 1]) in pairs
  }

  /** A walk of at least one edge. */
  ghost predicate Walk(pairs: seq<Pair>, p: seq<Id>) {
    |p| >= 2 && forall i :: 0 <= i < |p| - 1 ==> StepAt(pairs, p, i)
  }

  ghost predicate WalkBetween(pairs: seq<Pair>, p: seq<Id>, a: Id, b: Id) {
    Walk(pairs, p) && p[0] == a && p[|p| - 1] == b
  }

  ghost predicate Reaches(pairs: seq<Pair>, a: Id, b: Id) {
    exists p :: WalkBetween(pairs, p, a, b)
  }

  /** Some member reaches itself along at least one edge. */
  ghost predicate Cyclic(pairs: seq<Pair>) {
    exists a :: Reaches(pairs, a, a)
  }

  lemma EdgeReaches(pairs: seq<Pair>, a: Id, b: Id)
    requires Pair(a, b) in pairs
    ensures Reaches(pairs, a, b)
  {
    var p := [a, b];
    assert StepAt(pairs, p, 0);
    assert WalkBetween(pairs, p, a, b);
  }

  lemma ReachesFurther(pairs: seq<Pair>, a: Id, b: Id, c: Id)
    requires Reaches(pairs, a, b) && Pair(b, c) in pairs
    ensures Reaches(pairs, a, c)
  {
    var p :| WalkBetween(pairs, p, a, b);
    var q := p + [c];
    forall i | 0 <= i < |q| - 1 ensures StepAt(pairs, q, i) {
      if i < |p| - 1 {
        assert StepAt(pairs, p, i);
      }
    }
    assert WalkBetween(pairs, q, a, c);
  }

  // ----------------------------------------------------------- adjacency

  ghost function Endpoints(pairs: seq<Pair>): set<Id> {
    (set e | e in pairs :: e.subject) + (set e | e in pairs :: e.target)
  }

  ghost predicate IsAdjacency(pairs: seq<Pair>, adjacency: map<Id, set<Id>>) {
    && adjacency.Keys == Endpoints(pairs)
    && (forall u, v :: u in adjacency && v in adjacency[u] ==> Pair(u, v) in pairs)
    && (forall e :: e in pairs ==> e.subject in adjacency && e.target in adjacency[e.subject])
  }

  /** `adjacency.setdefault(key, set())`. */
  function SetDefault(adjacency: map<Id, set<Id>>, key: Id): map<Id, set<Id>> {
    if key in adjacency then adjacency else adjacency[key := {}]
  }

  method BuildAdjacency(pairs: seq<Pair>) returns (adjacency: map<Id, set<Id>>)
    ensures IsAdjacency(pairs, adjacency)
  {
    adjacency := map[];
    for i := 0 to |pairs|
      invariant IsAdjacency(pairs[..i], adjacency)
    {
      var e := pairs[i];
      assert pairs[..i + 1] == pairs[..i] + [e];
      adjacency := SetDefault(adjacency, e.subject);
      adjacency := adjacency[e.subject := adjacency[e.subject] + {e.target}];
      adjacency := SetDefault(adjacency, e.target);
    }
    assert pairs[..|pairs|] == pairs;
  }

  // -------------------------------------------------------- finish order

  /** Every successor of a member of `order` stands before it. */
  ghost predicate Topological(adjacency: map<Id, set<Id>>, order: seq<Id>) {
    && Distinct(order)
    && forall i :: 0 <= i < |order| ==> Grounded(adjacency, order, i)
  }

  ghost predicate Grounded(adjacency: map<Id, set<Id>>, order: seq<Id>, i: int) {
    0 <= i < |order| && order[i] in adjacency && forall v :: v in adjacency[order[i]] ==> v in order[..i]
  }

  lemma TopologicalAppend(adjacency: map<Id, set<Id>>, order: seq<Id>, node: Id)
    requires Topological(adjacency, order) && node in adjacency && node !in order
    requires forall v :: v in adjacency[node] ==> v in order
    ensures Topological(adjacency, order + [node])
  {
    var order' := order + [node];
    forall i | 0 <= i < |order'| ensures Grounded(adjacency, order', i) {
      if i < |order| {
        assert Grounded(adjacency, order, i);
        assert order'[..i] == order[..i];
      } else {
        assert order'[..i] == order;
      }
    }
  }

  /** Along a walk the position in a topological order falls. */
  lemma {:induction false} WalkDescends(pairs: seq<Pair>, adjacency: map<Id, set<Id>>, order: seq<Id>, p: seq<Id>,
          n: nat, at: nat)
    requires IsAdjacency(pairs, adjacency) && Topological(adjacency, order)
    requires Walk(pairs, p) && 0 < n < |p| && at < |order| && order[at] == p[0]
    ensures exists k :: 0 <= k < at && order[k] == p[n]
  {
    if n == 1 {
      assert StepAt(pairs, p, 0);
      assert Grounded(adjacency, order, at);
    } else {
      WalkDescends(pairs, adjacency, order, p, n - 1, at);
      var k :| 0 <= k < at && order[k] == p[n - 1];
      assert StepAt(pairs, p, n - 1);
      assert Grounded(adjacency, order, k);
    }
  }

  /** A topological order of all members rules every cycle out. */
  lemma OrderedIsAcyclic(pairs: seq<Pair>, adjacency: map<Id, set<Id>>, order: seq<Id>)
    requires IsAdjacency(pairs, adjacency) && Topological(adjacency, order)
    requires forall u :: u in adjacency ==> u in order
    ensures !Cyclic(pairs)
  {
    forall a | Reaches(pairs, a, a) ensures false {
      var p :| WalkBetween(pairs, p, a, a);
      assert StepAt(pairs, p, 0);
      var at :| 0 <= at < |order| && order[at] == a;
      WalkDescends(pairs, adjacency, order, p, |p| - 1, at);
    }
  }

  // ---------------------------------------------------------------- search

  class Search {
    const adjacency: map<Id, set<Id>>
    var visiting: set<Id>
    var visited: set<Id>
    ghost const pairs: seq<Pair>
    ghost var order: seq<Id>

    ghost predicate Valid()
      reads this
    {
      && IsAdjacency(pairs, adjacency)
      && visiting <= adjacency.Keys
    }

    /** Nothing found so far: the finished members are in topological order. */
    ghost predicate Clean()
      reads this
    {
      && Topological(adjacency, order)
      && (forall u :: u in visited <==> u in order)
      && visiting !! visited
    }

    constructor (pairs: seq<Pair>, adjacency: map<Id, set<Id>>)
      requires IsAdjacency(pairs, adjacency)
      ensures this.pairs == pairs && this.adjacency == adjacency
      ensures Valid() && Clean() && visiting == {}
    {
      this.pairs, this.adjacency := pairs, adjacency;
      visiting, visited, order := {}, {}, [];
    }

    /** `visit`: every member on the stack reaches `node`. */
    method Visit(node: Id) returns (found: bool)
      requires Valid() && Clean() && node in adjacency
      requires forall v :: v in visiting ==> Reaches(pairs, v, node)
      modifies this
      decreases adjacency.Keys - visiting, 1
      ensures Valid() && visiting == old(visiting)
      ensures found ==> Cyclic(pairs)
      ensures !found ==> Clean() && node in visited && old(visited) <= visited
    {
      if node in visiting {
        return true;
      }
      if node in visited {
        return false;
      }
      visiting := visiting + {node};
      found := VisitAll(node);
      visiting := visiting - {node};
      visited := visited + {node};
      if !found {
        TopologicalAppend(adjacency, order, node);
        order := order + [node];
      }
    }

    /** `any(visit(next) for next in adjacency[node])`, which stops at the first hit. */
    method VisitAll(node: Id) returns (found: bool)
      requires Valid() && Clean() && node in adjacency && node in visiting
      requires forall v :: v in visiting && v != node ==> Reaches(pairs, v, node)
      modifies this
      decreases adjacency.Keys - visiting, 2
      ensures Valid() && visiting == old(visiting)
      ensures found ==> Cyclic(pairs)
      ensures !found ==> Clean() && adjacency[node] <= visited && old(visited) <= visited
    {
      var remaining := adjacency[node];
      found := false;
      while remaining != {} && !found
        invariant Valid() && visiting == old(visiting) && remaining <= adjacency[node]
        invariant found ==> Cyclic(pairs)
        invariant !found ==> Clean() && adjacency[node] - remaining <= visited && old(visited) <= visited
        decreases remaining
      {
        var next :| next in remaining;
        remaining := remaining - {next};
        EdgeReaches(pairs, node, next);
        forall v | v in visiting ensures Reaches(pairs, v, next) {
          if v != node {
            ReachesFurther(pairs, v, node, next);
          }
        }
        found := Visit(next);
      }
    }
  }

  /** `_has_cycle` terminates and is true exactly when a non-empty closed path exists. */
  method HasCycle(pairs: seq<Pair>) returns (cycle: bool)
    ensures cycle <==> Cyclic(pairs)
  {
    var adjacency := BuildAdjacency(pairs);
    var search := new Search(pairs, adjacency);
    var remaining := adjacency.Keys;
    while remaining != {}
      invariant search.Valid() && search.Clean() && search.visiting == {}
      invariant search.pairs == pairs && search.adjacency == adjacency
      invariant remaining <= adjacency.Keys && adjacency.Keys - remaining <= search.visited
      decreases remaining
    {
      var node :| node in remaining;
      remaining := remaining - {node};
      cycle := search.Visit(node);
      if cycle {
        return;
      }
    }
    OrderedIsAcyclic(pairs, adjacency, search.order);
    cycle := false;
  }
}
