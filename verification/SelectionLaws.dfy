/** What selection guarantees: its outcome does not depend on the order of
    items or edges, and an accepted graph never deadlocks it. */
module SelectionLaws {
  import opened Prelude
  import opened GraphCycles
  import opened GraphOrdering
  import opened GraphValidation
  import opened GraphStore
  import opened GraphReplay
  import opened GraphRuns
  import opened Selection

  // ---------------------------------------------------------- order of the input

  /** The same graph with its edges listed in another order. */
  ghost predicate SameGraph(a: Option<Snapshot>, b: Option<Snapshot>) {
    && (a.Some? <==> b.Some?)
    && (a.Some? ==> a.value.binding == b.value.binding && a.value.members == b.value.members
                    && forall e :: e in a.value.edges <==> e in b.value.edges)
  }

  /** The same inventory with its items listed in another order. */
  ghost predicate SameInventory(a: Inventory, b: Inventory) {
    a.binding == b.binding && a.sourceCount == b.sourceCount && forall item :: item in a.items <==> item in b.items
  }

  lemma SameSubjects(a: seq<GraphEdge>, b: seq<GraphEdge>, id: Id)
    requires forall e :: e in a ==> e in b
    ensures Subject(Pairs(a), |a|, id) ==> Subject(Pairs(b), |b|, id)
  {
    if k :| 0 <= k < |a| && Pairs(a)[k].subject == id {
      assert a[k] in b;
      var l :| 0 <= l < |b| && b[l] == a[k];
      assert Pairs(b)[l].subject == id;
    }
  }

  lemma EligibleEitherWay(a: Inventory, b: Inventory, g: Option<Snapshot>, h: Option<Snapshot>, pending: bool,
          item: NormalizedItem)
    requires SameInventory(a, b) && SameGraph(g, h)
    ensures Eligible(a, g, pending, item) <==> Eligible(b, h, pending, item)
  {
    assert SharesMember(a.items, item) <==> SharesMember(b.items, item);
    if Bound(a, g) {
      SameSubjects(g.value.edges, h.value.edges, item.member);
      SameSubjects(h.value.edges, g.value.edges, item.member);
    }
  }

  /** The runnable identifiers are the same sequence for every order of the items and edges. */
  lemma SelectionIgnoresOrder(a: Inventory, b: Inventory, g: Option<Snapshot>, h: Option<Snapshot>, pending: bool,
          r: seq<OpaqueId>, s: seq<OpaqueId>)
    requires SameInventory(a, b) && SameGraph(g, h)
    requires IsSelection(a, g, pending, r) && IsSelection(b, h, pending, s)
    ensures r == s
  {
    forall item {
      EligibleEitherWay(a, b, g, h, pending, item);
    }
    forall id ensures id in r <==> id in s {
    }
    SameNumbers(r, s);
  }

  function Example(id: nat): NormalizedItem {
    NormalizedItem(id, id, 0, id, [0], false)
  }

  function ExampleEdge(subject: Id, target: Id): GraphEdge {
    GraphEdge(subject, target, Explicit, 0,
        Provenance(Relation(Explicit, DependsOn, subject, target, 0, High, 0), 0, 0, 0, 0, None, None))
  }

  /** The label `dependency-blocked`, unlike the runnable set, does depend on the
      order of the edges: item 1 depends on 2, and 2 on 3. */
  lemma LabelDependsOnEdgeOrder() returns (inv: Inventory, g: Snapshot, h: Snapshot, item: NormalizedItem)
    ensures inv.Valid() && item in inv.items && SameGraph(Some(g), Some(h))
    ensures !Applies(inv, Some(g), false, EdgesOf(inv, Some(g)), |EdgesOf(inv, Some(g))|, item, DependencyBlocked)
    ensures Applies(inv, Some(h), false, EdgesOf(inv, Some(h)), |EdgesOf(inv, Some(h))|, item, DependencyBlocked)
  {
    var binding := Binding(0, 0, 0, 0);
    inv := Inventory(binding, 2, [Example(1), Example(2), Example(3)]);
    item := Example(1);
    var members := [GraphMember(0, 0, Member(1, 1, 0)), GraphMember(0, 0, Member(2, 2, 0)),
        GraphMember(0, 0, Member(3, 3, 0))];
    var first, second := ExampleEdge(1, 2), ExampleEdge(2, 3);
    g := Snapshot(Some(0), Some(binding), members, [first, second], [0]);
    h := Snapshot(Some(0), Some(binding), members, [second, first], [0]);
    assert item == inv.items[0] && Example(2) == inv.items[1];
    assert forall e :: e in g.edges <==> e in h.edges;
    NotHeldExample(inv, g);
    ForwardIsUnlabelled(inv, g);
    BackwardIsLabelled(inv, h);
  }

  lemma NotHeldExample(inv: Inventory, g: Snapshot)
    requires inv == Inventory(Binding(0, 0, 0, 0), 2, [Example(1), Example(2), Example(3)])
    requires g.binding == Some(inv.binding)
    requires g.members == [GraphMember(0, 0, Member(1, 1, 0)), GraphMember(0, 0, Member(2, 2, 0)),
        GraphMember(0, 0, Member(3, 3, 0))]
    ensures !Held(inv, Some(g), false, Example(2))
  {
    assert g.members[..2][1] == GraphMember(0, 0, Member(2, 2, 0));
    assert ContentOf(g.members[..2], 2) == Some(0);
    assert ContentOf(g.members, 2) == Some(0);
    assert !SharesMember(inv.items, Example(2));
  }

  lemma ForwardIsUnlabelled(inv: Inventory, g: Snapshot)
    requires inv == Inventory(Binding(0, 0, 0, 0), 2, [Example(1), Example(2), Example(3)])
    requires g.binding == Some(inv.binding)
    requires g.edges == [ExampleEdge(1, 2), ExampleEdge(2, 3)] && !Held(inv, Some(g), false, Example(2))
    ensures !Applies(inv, Some(g), false, EdgesOf(inv, Some(g)), |EdgesOf(inv, Some(g))|, Example(1), DependencyBlocked)
  {
    var edges := EdgesOf(inv, Some(g));
    assert edges == [Pair(1, 2), Pair(2, 3)];
    assert !WaitsOnBlocked(inv, Some(g), false, edges, 0) by {
      forall dep | dep in inv.items && dep.member == edges[0].target ensures dep == Example(2) {
      }
    }
  }

  lemma BackwardIsLabelled(inv: Inventory, h: Snapshot)
    requires inv == Inventory(Binding(0, 0, 0, 0), 2, [Example(1), Example(2), Example(3)])
    requires h.binding == Some(inv.binding)
    requires h.edges == [ExampleEdge(2, 3), ExampleEdge(1, 2)]
    ensures Applies(inv, Some(h), false, EdgesOf(inv, Some(h)), |EdgesOf(inv, Some(h))|, Example(1), DependencyBlocked)
  {
    var edges := EdgesOf(inv, Some(h));
    assert edges == [Pair(2, 3), Pair(1, 2)];
    assert Example(2) == inv.items[1];
    assert Subject(edges, 1, 2) by {
      assert edges[0].subject == 2;
    }
    assert WaitsOnBlocked(inv, Some(h), false, edges, 1);
    assert EdgeAdds(inv, Some(h), false, edges, 1, DependencyBlocked);
  }

  /** Whether the edges, in this order, give `item` the label `dependency-blocked`. */
  ghost predicate Labelled(inv: Inventory, graph: Option<Snapshot>, pending: bool, item: NormalizedItem,
          edges: seq<Pair>)
  {
    Applies(inv, graph, pending, edges, |edges|, item, DependencyBlocked)
  }

  /** Something `item` depends on is blocked before any edge is looked at. */
  ghost predicate HeldDependency(inv: Inventory, graph: Option<Snapshot>, pending: bool, item: NormalizedItem,
          edges: seq<Pair>)
  {
    exists dep :: dep in inv.items && Pair(item.member, dep.member) in edges && Held(inv, graph, pending, dep)
  }

  /** Something `item` depends on depends on something itself. */
  ghost predicate WaitingDependency(inv: Inventory, item: NormalizedItem, edges: seq<Pair>) {
    exists dep, e :: dep in inv.items && Pair(item.member, dep.member) in edges && e in edges && e.subject == dep.member
  }

  ghost predicate Reordered(a: seq<Pair>, b: seq<Pair>) {
    multiset(a) == multiset(b)
  }

  lemma LabelNeedsReason(inv: Inventory, graph: Option<Snapshot>, pending: bool, item: NormalizedItem, edges: seq<Pair>)
    ensures HeldDependency(inv, graph, pending, item, edges) ==> Labelled(inv, graph, pending, item, edges)
    ensures Labelled(inv, graph, pending, item, edges) ==>
        HeldDependency(inv, graph, pending, item, edges) || WaitingDependency(inv, item, edges)
  {
    if HeldDependency(inv, graph, pending, item, edges) {
      var dep :| dep in inv.items && Pair(item.member, dep.member) in edges && Held(inv, graph, pending, dep);
      var k :| 0 <= k < |edges| && edges[k] == Pair(item.member, dep.member);
      assert WaitsOnBlocked(inv, graph, pending, edges, k);
      assert EdgeAdds(inv, graph, pending, edges, k, DependencyBlocked);
    }
    if Labelled(inv, graph, pending, item, edges) {
      var k :| 0 <= k < |edges| && edges[k].subject == item.member
          && EdgeAdds(inv, graph, pending, edges, k, DependencyBlocked);
      var dep :| dep in inv.items && dep.member == edges[k].target && Unready(inv, graph, pending, edges, k, dep);
      assert edges[k] == Pair(item.member, dep.member);
      if !Held(inv, graph, pending, dep) {
        var j :| 0 <= j < k && edges[j].subject == dep.member;
        assert edges[j] in edges;
      }
    }
  }

  lemma {:induction false} Partition(s: seq<Pair>, id: Id)
    ensures Reordered(s, Filter(s, (e: Pair) => e.subject == id) + Filter(s, (e: Pair) => e.subject != id))
  {
    if s != [] {
      Partition(s[..|s| - 1], id);
      assert s == s[..|s| - 1] + [s[|s| - 1]];
    }
  }

  lemma ReorderedMembers(a: seq<Pair>, b: seq<Pair>)
    requires Reordered(a, b)
    ensures forall e :: e in a <==> e in b
  {
    SameMembers(a, b);
  }

  lemma OwnFirstUnlabelled(inv: Inventory, graph: Option<Snapshot>, pending: bool, item: NormalizedItem, own: seq<Pair>,
          others: seq<Pair>)
    requires (forall e :: e in own ==> e.subject == item.member && e.target != item.member) && forall e ::
        e in others ==> e.subject != item.member
    requires !HeldDependency(inv, graph, pending, item, own + others)
    ensures !Labelled(inv, graph, pending, item, own + others)
  {
    var edges := own + others;
    forall k | 0 <= k < |edges| && edges[k].subject == item.member
        ensures !WaitsOnBlocked(inv, graph, pending, edges, k)
    {
      assert k < |own|;
      assert edges[k] == own[k] && own[k] in own;
      forall dep | dep in inv.items && dep.member == edges[k].target
          ensures !Held(inv, graph, pending, dep) && !Subject(edges, k, dep.member)
      {
        assert Pair(item.member, dep.member) == edges[k] && edges[k] in edges;
        forall j | 0 <= j < k ensures edges[j].subject != dep.member {
          assert edges[j] == own[j] && own[j] in own;
        }
      }
    }
  }

  lemma OthersFirstLabelled(inv: Inventory, graph: Option<Snapshot>, pending: bool, item: NormalizedItem,
          own: seq<Pair>, others: seq<Pair>, dep: NormalizedItem, e: Pair)
    requires dep in inv.items && Pair(item.member, dep.member) in own && e in others && e.subject == dep.member
    ensures Labelled(inv, graph, pending, item, others + own)
  {
    var edges := others + own;
    var c :| 0 <= c < |own| && own[c] == Pair(item.member, dep.member);
    var j :| 0 <= j < |others| && others[j] == e;
    var k := |others| + c;
    assert edges[k] == own[c] && edges[j] == e;
    assert Subject(edges, k, dep.member);
    assert WaitsOnBlocked(inv, graph, pending, edges, k);
    assert EdgeAdds(inv, graph, pending, edges, k, DependencyBlocked);
  }

  /** Exactly when the label does not depend on the order of the edges: something
      the item depends on is held anyway, or nothing it depends on has edges. */
  lemma LabelIsStableExactly(inv: Inventory, graph: Option<Snapshot>, pending: bool, item: NormalizedItem,
          edges: seq<Pair>)
    requires Pair(item.member, item.member) !in edges
    ensures (forall other :: Reordered(edges, other) ==>
        (Labelled(inv, graph, pending, item, other) <==> Labelled(inv, graph, pending, item, edges)))
       <==> HeldDependency(inv, graph, pending, item, edges) || !WaitingDependency(inv, item, edges)
  {
    forall other | Reordered(edges, other)
      ensures HeldDependency(inv, graph, pending, item, edges) || !WaitingDependency(inv, item, edges) ==>
        (Labelled(inv, graph, pending, item, other) <==> Labelled(inv, graph, pending, item, edges))
    {
      ReorderedMembers(edges, other);
      LabelNeedsReason(inv, graph, pending, item, other);
      LabelNeedsReason(inv, graph, pending, item, edges);
    }
    if !HeldDependency(inv, graph, pending, item, edges) && WaitingDependency(inv, item, edges) {
      BothLabels(inv, graph, pending, item, edges);
    }
  }

  lemma BothLabels(inv: Inventory, graph: Option<Snapshot>, pending: bool, item: NormalizedItem, edges: seq<Pair>)
    requires Pair(item.member, item.member) !in edges
    requires !HeldDependency(inv, graph, pending, item, edges) && WaitingDependency(inv, item, edges)
    ensures exists other :: Reordered(edges, other) && Labelled(inv, graph, pending, item, other)
    ensures exists other :: Reordered(edges, other) && !Labelled(inv, graph, pending, item, other)
  {
    var own := Filter(edges, (e: Pair) => e.subject == item.member);
    var others := Filter(edges, (e: Pair) => e.subject != item.member);
    Partition(edges, item.member);
    ReorderedMembers(edges, own + others);
    OwnFirstUnlabelled(inv, graph, pending, item, own, others);
    var dep, e :| dep in inv.items && Pair(item.member, dep.member) in edges && e in edges && e.subject == dep.member;
    OthersFirstLabelled(inv, graph, pending, item, own, others, dep, e);
    assert Reordered(edges, others + own);
  }

  // ------------------------------------------------------------------ no deadlock

  ghost predicate Waits(pairs: seq<Pair>, ids: set<Id>, a: Id) {
    exists b :: b in ids && Pair(a, b) in pairs
  }

  /** Every member of `ids` depends on another member of `ids`. */
  ghost predicate EveryoneWaits(pairs: seq<Pair>, ids: set<Id>) {
    forall a {:trigger Waits(pairs, ids, a)} :: a in ids ==> Waits(pairs, ids, a)
  }

  /** When everyone waits there are walks of any length. */
  lemma {:induction false} WalkOfLength(pairs: seq<Pair>, ids: set<Id>, a: Id, n: nat) returns (p: seq<Id>)
    requires EveryoneWaits(pairs, ids) && a in ids
    ensures |p| == n + 1 && (forall i :: 0 <= i < |p| ==> p[i] in ids) && forall i :: 0 <= i < |p| - 1 ==>
        StepAt(pairs, p, i)
    decreases n
  {
    if n == 0 {
      return [a];
    }
    var q := WalkOfLength(pairs, ids, a, n - 1);
    assert Waits(pairs, ids, q[n - 1]);
    var b :| b in ids && Pair(q[n - 1], b) in pairs;
    p := q + [b];
    forall i | 0 <= i < |p| - 1 ensures StepAt(pairs, p, i) {
      if i < n - 1 {
        assert StepAt(pairs, q, i);
      }
    }
  }

  lemma SubsetIsSmaller<T>(a: set<T>, b: set<T>)
    requires a <= b
    ensures |a| <= |b|
  {
    assert b == a + (b - a);
  }

  /** A walk longer than the number of members repeats one. */
  lemma LongWalkRepeats(p: seq<Id>, ids: set<Id>) returns (i: nat, j: nat)
    requires |p| > |ids| && forall k :: 0 <= k < |p| ==> p[k] in ids
    ensures i < j < |p| && p[i] == p[j]
  {
    if Distinct(p) {
      DistinctCardinality(p);
      SubsetIsSmaller(Elements(p), ids);
    }
    i, j :| 0 <= i < j < |p| && p[i] == p[j];
  }

  lemma EveryoneWaitsIsCyclic(pairs: seq<Pair>, ids: set<Id>)
    requires ids != {} && EveryoneWaits(pairs, ids)
    ensures Cyclic(pairs)
  {
    var a :| a in ids;
    var p := WalkOfLength(pairs, ids, a, |ids|);
    var i, j := LongWalkRepeats(p, ids);
    var q := p[i..j + 1];
    forall k | 0 <= k < |q| - 1 ensures StepAt(pairs, q, k) {
      assert StepAt(pairs, p, i + k);
    }
    assert WalkBetween(pairs, q, p[i], p[i]);
    assert Reaches(pairs, p[i], p[i]);
  }

  /** The inventory is unambiguous and matches the graph, and no edge leads from
      a member inside the inventory to one outside. */
  ghost predicate Matching(inv: Inventory, graph: Snapshot) {
    && inv.items != [] && graph.binding == Some(inv.binding)
    && (forall item :: item in inv.items ==>
          !item.ambiguous && !SharesMember(inv.items, item)
              && ContentOf(graph.members, item.member) == Some(item.content))
    && (forall e :: e in graph.edges && Present(inv.items, e.subject) ==> Present(inv.items, e.target))
  }

  /** An acyclic graph never deadlocks selection. */
  lemma AcyclicNeverDeadlocks(inv: Inventory, graph: Snapshot)
    requires Matching(inv, graph) && !Cyclic(Pairs(graph.edges))
    ensures exists item :: item in inv.items && Eligible(inv, Some(graph), false, item)
  {
    var pairs := Pairs(graph.edges);
    var ids := set item | item in inv.items :: item.member;
    if !exists item :: item in inv.items && Eligible(inv, Some(graph), false, item) {
      forall a | a in ids ensures Waits(pairs, ids, a) {
        var item :| item in inv.items && item.member == a;
        assert !Eligible(inv, Some(graph), false, item);
        var k :| 0 <= k < |pairs| && pairs[k].subject == a;
        assert graph.edges[k] in graph.edges;
        assert Present(inv.items, graph.edges[k].target);
        assert pairs[k] in pairs;
      }
      assert inv.items[0].member in ids;
      EveryoneWaitsIsCyclic(pairs, ids);
    }
  }

  /** The inventory holds exactly the members of the graph, unambiguously and
      with the same content. */
  ghost predicate ExactInventory(inv: Inventory, graph: Snapshot) {
    && inv.items != [] && graph.binding == Some(inv.binding)
    && (forall item :: item in inv.items ==> !item.ambiguous && !SharesMember(inv.items, item))
    && (forall item :: item in inv.items ==>
        exists m :: m in graph.members && m.member.id == item.member && m.member.content == item.content)
    && (forall m :: m in graph.members ==> Present(inv.items, m.member.id))
  }

  lemma {:induction false} UniqueContent(members: seq<GraphMember>, m: GraphMember)
    requires Ascending(members, MemberKey) && m in members
    ensures ContentOf(members, m.member.id) == Some(m.member.content)
  {
    var init, last := members[..|members| - 1], members[|members| - 1];
    var i :| 0 <= i < |members| && members[i] == m;
    if i < |members| - 1 {
      assert Less(MemberKey(members[i]), MemberKey(last));
      assert init[i] == m;
      UniqueContent(init, m);
    }
  }

  lemma ExactIsMatching(inv: Inventory, graph: Snapshot)
    requires ExactInventory(inv, graph) && Healthy(graph.members, graph.edges)
    ensures Matching(inv, graph)
  {
    forall item | item in inv.items ensures ContentOf(graph.members, item.member) == Some(item.content) {
      var m :| m in graph.members && m.member.id == item.member && m.member.content == item.content;
      UniqueContent(graph.members, m);
    }
    forall e | e in graph.edges ensures Present(inv.items, e.target) {
      assert HasMember(graph.members, e.target);
    }
  }

  /** Whatever proposals were activated, under whatever bindings, the graph the
      store then serves leaves at least one item of an exactly matching
      inventory runnable. */
  lemma AcceptedGraphNeverDeadlocks(events: seq<Event>, inv: Inventory, runnable: seq<OpaqueId>)
    requires var s := Run(Initial, events);
      && s.db.current.Some? && ReadCurrent(s.review, s.db).Some?
      && ExactInventory(inv, ReadCurrent(s.review, s.db).value)
      && IsSelection(inv, ReadCurrent(s.review, s.db), false, runnable)
    ensures runnable != []
  {
    var s := Run(Initial, events);
    EveryRunReplays(events);
    EveryCurrentVersionIsHealthy(events, []);
    var graph := Stored(s.db, s.db.current.value);
    ExactIsMatching(inv, graph);
    AcyclicNeverDeadlocks(inv, graph);
    var item :| item in inv.items && Eligible(inv, Some(graph), false, item);
    assert item.opaqueId in runnable;
  }
}
