/** Selection of runnable work from an inventory and the accepted graph: the
    mutable blocker sets, and the declarative rule they refine. */
module Selection {
  import opened Prelude
  import opened GraphCycles
  import opened GraphOrdering
  import opened GraphValidation

  /** A digest-named item, by the rank of its digest in the order of strings. */
  type OpaqueId = nat

  datatype NormalizedItem = NormalizedItem(
    opaqueId: OpaqueId,
    member: Id,
    content: Atom,
    mechanical: Atom,
    sources: seq<nat>,
    ambiguous: bool)

  /** `binding` is the graph binding expected for the inventory. */
  datatype Inventory = Inventory(binding: Binding, sourceCount: nat, items: seq<NormalizedItem>)
  {
    /** What constructing an inventory checks of its items. */
    predicate Valid() {
      forall i, j :: 0 <= i < j < |items| ==> items[i].opaqueId != items[j].opaqueId
    }
  }

  datatype Blocker =
    | AmbiguousDeduplication | MemberIdentityAmbiguous | OwnerItemUnresolved
    | CurrentGraphUnavailable | GraphMemberUnavailable
    | DependencyOutsideInventory | DependencyBlocked | DependencyNotComplete

  type Blockers = map<OpaqueId, set<Blocker>>

  // ----------------------------------------------------------- the declared rule

  ghost predicate SharesMember(items: seq<NormalizedItem>, item: NormalizedItem) {
    exists other :: other in items && other != item && other.member == item.member
  }

  /** `{member_id: content_digest}` of the graph, looked up. */
  function ContentOf(members: seq<GraphMember>, id: Id): Option<Atom> {
    if members == [] then None
    else
      var last := members[|members| - 1];
      if last.member.id == id then Some(last.member.content) else ContentOf(members[..|members| - 1], id)
  }

  predicate Bound(inv: Inventory, graph: Option<Snapshot>) {
    graph.Some? && graph.value.binding == Some(inv.binding)
  }

  /** Only a graph of the expected binding contributes edges. */
  function EdgesOf(inv: Inventory, graph: Option<Snapshot>): seq<Pair> {
    if Bound(inv, graph) then Pairs(graph.value.edges) else []
  }

  /** The blockers that are settled before any edge is looked at. */
  ghost predicate Settled(inv: Inventory, graph: Option<Snapshot>, pending: bool, item: NormalizedItem, b: Blocker) {
    match b
    case AmbiguousDeduplication => item.ambiguous
    case MemberIdentityAmbiguous => SharesMember(inv.items, item)
    case OwnerItemUnresolved => pending
    case CurrentGraphUnavailable => !Bound(inv, graph) && (graph.Some? || inv.sourceCount > 1)
    case GraphMemberUnavailable => Bound(inv, graph)
        && ContentOf(graph.value.members, item.member) != Some(item.content)
    case _ => false
  }

  ghost predicate Held(inv: Inventory, graph: Option<Snapshot>, pending: bool, item: NormalizedItem) {
    exists b :: Settled(inv, graph, pending, item, b)
  }

  ghost predicate Present(items: seq<NormalizedItem>, id: Id) {
    exists item :: item in items && item.member == id
  }

  ghost predicate Subject(edges: seq<Pair>, n: int, id: Id) {
    exists k :: 0 <= k < n && k < |edges| && edges[k].subject == id
  }

  /** Some item that edge `k` depends on is blocked when the edge is reached. */
  ghost predicate WaitsOnBlocked(inv: Inventory, graph: Option<Snapshot>, pending: bool, edges: seq<Pair>, k: nat)
    requires k < |edges|
  {
    exists dep :: dep in inv.items && dep.member == edges[k].target && Unready(inv, graph, pending, edges, k, dep)
  }

  /** A dependency is blocked when edge `k` is reached. */
  ghost predicate Unready(inv: Inventory, graph: Option<Snapshot>, pending: bool, edges: seq<Pair>, k: nat,
          dep: NormalizedItem)
    requires k < |edges|
  {
    Held(inv, graph, pending, dep) || Subject(edges, k, dep.member)
  }

  /** What edge `k` adds to the blockers of its subject. */
  ghost predicate EdgeAdds(inv: Inventory, graph: Option<Snapshot>, pending: bool, edges: seq<Pair>, k: nat, b: Blocker)
    requires k < |edges|
  {
    match b
    case DependencyOutsideInventory => !Present(inv.items, edges[k].target)
    case DependencyNotComplete => Present(inv.items, edges[k].target)
    case DependencyBlocked => WaitsOnBlocked(inv, graph, pending, edges, k)
    case _ => false
  }

  /** Exactly the blockers of an item once the first `n` edges are done. */
  ghost predicate Applies(inv: Inventory, graph: Option<Snapshot>, pending: bool, edges: seq<Pair>, n: nat,
          item: NormalizedItem, b: Blocker)
    requires n <= |edges|
  {
    || Settled(inv, graph, pending, item, b)
    || exists k :: 0 <= k < n && edges[k].subject == item.member && EdgeAdds(inv, graph, pending, edges, k, b)
  }

  /** An item is runnable when nothing settles against it and no edge starts at it. */
  ghost predicate Eligible(inv: Inventory, graph: Option<Snapshot>, pending: bool, item: NormalizedItem) {
    && !item.ambiguous
    && !SharesMember(inv.items, item)
    && !pending
    && (graph.None? ==> inv.sourceCount <= 1)
    && (graph.Some? ==> Bound(inv, graph) && ContentOf(graph.value.members, item.member) == Some(item.content))
    && !Subject(EdgesOf(inv, graph), |EdgesOf(inv, graph)|, item.member)
  }

  /** The mutable blocker sets leave an item without blockers exactly when the rule admits it. */
  lemma UnblockedMeansEligible(inv: Inventory, graph: Option<Snapshot>, pending: bool, item: NormalizedItem)
    ensures var edges := EdgesOf(inv, graph);
      Eligible(inv, graph, pending, item) <==> forall b :: !Applies(inv, graph, pending, edges, |edges|, item, b)
  {
    var edges := EdgesOf(inv, graph);
    if Eligible(inv, graph, pending, item) {
      forall b ensures !Applies(inv, graph, pending, edges, |edges|, item, b) {
        assert !Settled(inv, graph, pending, item, b);
      }
    }
    if forall b :: !Applies(inv, graph, pending, edges, |edges|, item, b) {
      assert !Applies(inv, graph, pending, edges, |edges|, item, AmbiguousDeduplication);
      assert !Applies(inv, graph, pending, edges, |edges|, item, MemberIdentityAmbiguous);
      assert !Applies(inv, graph, pending, edges, |edges|, item, OwnerItemUnresolved);
      assert !Applies(inv, graph, pending, edges, |edges|, item, CurrentGraphUnavailable);
      assert !Applies(inv, graph, pending, edges, |edges|, item, GraphMemberUnavailable);
      assert !Applies(inv, graph, pending, edges, |edges|, item, DependencyOutsideInventory);
      assert !Applies(inv, graph, pending, edges, |edges|, item, DependencyNotComplete);
    }
  }

  // ------------------------------------------------------------------ the loops

  function Named(items: seq<NormalizedItem>, id: Id): seq<NormalizedItem> {
    Filter(items, (item: NormalizedItem) => item.member == id)
  }

  /** `by_member.get(id, ())`. */
  function Group(byMember: map<Id, seq<NormalizedItem>>, id: Id): seq<NormalizedItem> {
    if id in byMember then byMember[id] else []
  }

  lemma NamedNext(items: seq<NormalizedItem>, i: nat, id: Id)
    requires i < |items|
    ensures Named(items[..i + 1], id) == Named(items[..i], id) + if items[i].member == id then [items[i]] else []
  {
    assert items[..i + 1][..i] == items[..i];
  }

  method GroupByMember(items: seq<NormalizedItem>) returns (byMember: map<Id, seq<NormalizedItem>>)
    ensures forall id :: Group(byMember, id) == Named(items, id)
  {
    byMember := map[];
    for i := 0 to |items|
      invariant forall id :: Group(byMember, id) == Named(items[..i], id)
    {
      var item := items[i];
      var grown := byMember[item.member := Group(byMember, item.member) + [item]];
      forall id ensures Group(grown, id) == Named(items[..i + 1], id) {
        NamedNext(items, i, id);
        assert Group(byMember, id) == Named(items[..i], id);
      }
      byMember := grown;
    }
    assert items[..|items|] == items;
  }

  /** `len(by_member[member]) > 1`, for items with distinct identifiers. */
  lemma CrowdedMeansShared(inv: Inventory, item: NormalizedItem)
    requires inv.Valid() && item in inv.items
    ensures |Named(inv.items, item.member)| > 1 <==> SharesMember(inv.items, item)
  {
    var named := Named(inv.items, item.member);
    DistinctNamed(inv.items, item.member);
    assert item in named;
    var k :| 0 <= k < |named| && named[k] == item;
    if |named| > 1 {
      var l := if k == 0 then 1 else 0;
      assert named[l] in named && named[l] != item;
    }
    if other :| other in inv.items && other != item && other.member == item.member {
      assert other in named;
    }
  }

  lemma {:induction false} DistinctNamed(items: seq<NormalizedItem>, id: Id)
    requires forall i, j :: 0 <= i < j < |items| ==> items[i].opaqueId != items[j].opaqueId
    ensures Distinct(Named(items, id))
  {
    if items != [] {
      var init, last := items[..|items| - 1], items[|items| - 1];
      DistinctNamed(init, id);
      assert last !in init;
      assert items[..|items|] == items;
      NamedNext(items, |items| - 1, id);
    }
  }

  /** Distinct identifiers name distinct items. */
  lemma SameIdSameItem(inv: Inventory, a: NormalizedItem, b: NormalizedItem)
    requires inv.Valid() && a in inv.items && b in inv.items && a.opaqueId == b.opaqueId
    ensures a == b
  {
    var i :| 0 <= i < |inv.items| && inv.items[i] == a;
    var j :| 0 <= j < |inv.items| && inv.items[j] == b;
    assert i == j;
  }

  /** How far the passes over the blocker sets have come for one item. */
  datatype Phase = Unseen | ItemChecked | EdgesDone(n: nat)

  ghost predicate Known(inv: Inventory, graph: Option<Snapshot>, pending: bool, phase: Phase, item: NormalizedItem,
          b: Blocker)
  {
    match phase
    case Unseen => false
    case ItemChecked => Settled(inv, graph, pending, item, b)
        && (b.AmbiguousDeduplication? || b.MemberIdentityAmbiguous? || b.OwnerItemUnresolved?)
    case EdgesDone(n) => n <= |EdgesOf(inv, graph)| && Applies(inv, graph, pending, EdgesOf(inv, graph), n, item, b)
  }

  /** The blocker set of the k-th item is exactly what its phase says. */
  ghost predicate At(inv: Inventory, graph: Option<Snapshot>, pending: bool, blockers: Blockers, phase: Phase, k: int) {
    && 0 <= k < |inv.items| && inv.items[k].opaqueId in blockers
    && forall b :: b in blockers[inv.items[k].opaqueId] <==> Known(inv, graph, pending, phase, inv.items[k], b)
  }

  /** `blockers[item].add(...)` for each blocker in `more`. */
  function Add(blockers: Blockers, id: OpaqueId, more: set<Blocker>): Blockers
    requires id in blockers
  {
    blockers[id := blockers[id] + more]
  }

  lemma AddElsewhere(inv: Inventory, graph: Option<Snapshot>, pending: bool, blockers: Blockers, phase: Phase, i: nat,
          k: nat, more: set<Blocker>)
    requires inv.Valid() && i < |inv.items| && inv.items[i].opaqueId in blockers
    requires k != i && At(inv, graph, pending, blockers, phase, k)
    ensures At(inv, graph, pending, Add(blockers, inv.items[i].opaqueId, more), phase, k)
  {
    assert inv.items[i].opaqueId != inv.items[k].opaqueId;
  }

  lemma AddHere(inv: Inventory, graph: Option<Snapshot>, pending: bool, blockers: Blockers, before: Phase, after: Phase,
          i: nat, more: set<Blocker>)
    requires i < |inv.items| && At(inv, graph, pending, blockers, before, i)
    requires forall b :: Known(inv, graph, pending, after, inv.items[i], b) <==>
        Known(inv, graph, pending, before, inv.items[i], b) || b in more
    ensures At(inv, graph, pending, Add(blockers, inv.items[i].opaqueId, more), after, i)
  {
  }

  /** One step of a pass that takes every item from one phase to the next. */
  lemma PassStep(inv: Inventory, graph: Option<Snapshot>, pending: bool, blockers: Blockers, before: Phase,
          after: Phase, i: nat, more: set<Blocker>)
    requires inv.Valid() && i < |inv.items|
    requires forall k :: 0 <= k < i ==> At(inv, graph, pending, blockers, after, k)
    requires forall k :: i <= k < |inv.items| ==> At(inv, graph, pending, blockers, before, k)
    requires forall b :: Known(inv, graph, pending, after, inv.items[i], b) <==>
        Known(inv, graph, pending, before, inv.items[i], b) || b in more
    ensures inv.items[i].opaqueId in blockers
    ensures var blockers' := Add(blockers, inv.items[i].opaqueId, more);
      && (forall k :: 0 <= k < i + 1 ==> At(inv, graph, pending, blockers', after, k))
      && (forall k :: i + 1 <= k < |inv.items| ==> At(inv, graph, pending, blockers', before, k))
  {
    assert At(inv, graph, pending, blockers, before, i);
    var blockers' := Add(blockers, inv.items[i].opaqueId, more);
    forall k | 0 <= k < i + 1 ensures At(inv, graph, pending, blockers', after, k) {
      if k == i {
        AddHere(inv, graph, pending, blockers, before, after, i, more);
      } else {
        AddElsewhere(inv, graph, pending, blockers, after, i, k, more);
      }
    }
    forall k | i + 1 <= k < |inv.items| ensures At(inv, graph, pending, blockers', before, k) {
      AddElsewhere(inv, graph, pending, blockers, before, i, k, more);
    }
  }

  function OpaqueIds(items: seq<NormalizedItem>): set<OpaqueId> {
    set item | item in items :: item.opaqueId
  }

  method InitialBlockers(inv: Inventory, ghost graph: Option<Snapshot>, ghost pending: bool)
    returns (blockers: Blockers)
    ensures forall k :: 0 <= k < |inv.items| ==> At(inv, graph, pending, blockers, Unseen, k)
    ensures blockers.Keys == OpaqueIds(inv.items)
  {
    blockers := map id | id in OpaqueIds(inv.items) :: {};
    forall k | 0 <= k < |inv.items| ensures At(inv, graph, pending, blockers, Unseen, k) {
      assert inv.items[k] in inv.items;
    }
  }

  function OwnBlockers(item: NormalizedItem, crowded: bool, pending: bool): set<Blocker> {
    (if item.ambiguous then {AmbiguousDeduplication} else {})
    + (if crowded then {MemberIdentityAmbiguous} else {})
    + (if pending then {OwnerItemUnresolved} else {})
  }

  lemma ItemBlockers(inv: Inventory, graph: Option<Snapshot>, pending: bool, item: NormalizedItem, crowded: bool)
    requires inv.Valid() && item in inv.items && (crowded <==> |Named(inv.items, item.member)| > 1)
    ensures forall b :: Known(inv, graph, pending, ItemChecked, item, b) <==> b in OwnBlockers(item, crowded, pending)
  {
    CrowdedMeansShared(inv, item);
  }

  /** The checks that each item faces on its own. */
  method ItemPass(inv: Inventory, ghost graph: Option<Snapshot>, pending: bool, byMember: map<Id, seq<NormalizedItem>>,
          start: Blockers)
    returns (blockers: Blockers)
    requires inv.Valid() && forall id :: Group(byMember, id) == Named(inv.items, id)
    requires forall k :: 0 <= k < |inv.items| ==> At(inv, graph, pending, start, Unseen, k)
    ensures blockers.Keys == start.Keys
    ensures forall k :: 0 <= k < |inv.items| ==> At(inv, graph, pending, blockers, ItemChecked, k)
  {
    blockers := start;
    for i := 0 to |inv.items|
      invariant blockers.Keys == start.Keys
      invariant forall k :: 0 <= k < i ==> At(inv, graph, pending, blockers, ItemChecked, k)
      invariant forall k :: i <= k < |inv.items| ==> At(inv, graph, pending, blockers, Unseen, k)
    {
      var item := inv.items[i];
      assert At(inv, graph, pending, blockers, Unseen, i);
      ItemBlockers(inv, graph, pending, item, |Group(byMember, item.member)| > 1);
      var more := OwnBlockers(item, |Group(byMember, item.member)| > 1, pending);
      PassStep(inv, graph, pending, blockers, Unseen, ItemChecked, i, more);
      blockers := Add(blockers, item.opaqueId, more);
    }
  }

  /** The checks against the current graph. */
  method GraphPass(inv: Inventory, graph: Option<Snapshot>, ghost pending: bool, start: Blockers)
    returns (blockers: Blockers)
    requires inv.Valid()
    requires forall k :: 0 <= k < |inv.items| ==> At(inv, graph, pending, start, ItemChecked, k)
    ensures blockers.Keys == start.Keys
    ensures forall k :: 0 <= k < |inv.items| ==> At(inv, graph, pending, blockers, EdgesDone(0), k)
  {
    blockers := start;
    var unavailable := if graph.Some? then !Bound(inv, graph) else inv.sourceCount > 1;
    for i := 0 to |inv.items|
      invariant blockers.Keys == start.Keys
      invariant forall k :: 0 <= k < i ==> At(inv, graph, pending, blockers, EdgesDone(0), k)
      invariant forall k :: i <= k < |inv.items| ==> At(inv, graph, pending, blockers, ItemChecked, k)
    {
      var item := inv.items[i];
      assert At(inv, graph, pending, blockers, ItemChecked, i);
      var more := if unavailable then {CurrentGraphUnavailable}
        else if graph.Some? && ContentOf(graph.value.members, item.member) != Some(item.content) then
            {GraphMemberUnavailable} else {};
      PassStep(inv, graph, pending, blockers, ItemChecked, EdgesDone(0), i, more);
      blockers := Add(blockers, item.opaqueId, more);
    }
  }

  // ------------------------------------------------------------- edge by edge

  lemma AppliesNext(inv: Inventory, graph: Option<Snapshot>, pending: bool, edges: seq<Pair>, n: nat,
          item: NormalizedItem, b: Blocker)
    requires n < |edges|
    ensures Applies(inv, graph, pending, edges, n + 1, item, b) <==>
      Applies(inv, graph, pending, edges, n, item, b)
          || (edges[n].subject == item.member && EdgeAdds(inv, graph, pending, edges, n, b))
  {
    if k :| 0 <= k < n + 1 && edges[k].subject == item.member && EdgeAdds(inv, graph, pending, edges, k, b) {
      assert k == n || k < n;
    }
  }

  /** After `n` edges an item has some blocker exactly when something settles
      against it or one of these edges starts at it. */
  lemma BlockedAfter(inv: Inventory, graph: Option<Snapshot>, pending: bool, edges: seq<Pair>, n: nat,
          item: NormalizedItem)
    requires n <= |edges|
    ensures (exists b :: Applies(inv, graph, pending, edges, n, item, b)) <==>
        Held(inv, graph, pending, item) || Subject(edges, n, item.member)
  {
    if k :| 0 <= k < n && edges[k].subject == item.member {
      var b := if Present(inv.items, edges[k].target) then DependencyNotComplete else DependencyOutsideInventory;
      assert EdgeAdds(inv, graph, pending, edges, k, b);
      assert Applies(inv, graph, pending, edges, n, item, b);
    }
    if b :| Settled(inv, graph, pending, item, b) {
      assert Applies(inv, graph, pending, edges, n, item, b);
    }
  }

  /** Within edge `n`: items of its subject are behind until they are `done`. */
  function PhaseIn(item: NormalizedItem, subject: Id, done: set<OpaqueId>, n: nat): Phase {
    if item.member == subject && item.opaqueId !in done then EdgesDone(n) else EdgesDone(n + 1)
  }

  ghost predicate InEdge(inv: Inventory, graph: Option<Snapshot>, pending: bool, blockers: Blockers, subject: Id,
          done: set<OpaqueId>, n: nat)
  {
    forall k :: 0 <= k < |inv.items| ==> At(inv, graph, pending, blockers, PhaseIn(inv.items[k], subject, done, n), k)
  }

  ghost predicate AllDone(inv: Inventory, graph: Option<Snapshot>, pending: bool, blockers: Blockers, n: nat) {
    forall k :: 0 <= k < |inv.items| ==> At(inv, graph, pending, blockers, EdgesDone(n), k)
  }

  lemma EnterEdge(inv: Inventory, graph: Option<Snapshot>, pending: bool, blockers: Blockers, n: nat)
    requires n < |EdgesOf(inv, graph)| && AllDone(inv, graph, pending, blockers, n)
    ensures InEdge(inv, graph, pending, blockers, EdgesOf(inv, graph)[n].subject, {}, n)
  {
    var edges, none: set<OpaqueId> := EdgesOf(inv, graph), {};
    var subject := edges[n].subject;
    forall k | 0 <= k < |inv.items|
        ensures At(inv, graph, pending, blockers, PhaseIn(inv.items[k], subject, none, n), k)
    {
      assert At(inv, graph, pending, blockers, EdgesDone(n), k);
      if inv.items[k].member != edges[n].subject {
        forall b {
          AppliesNext(inv, graph, pending, edges, n, inv.items[k], b);
        }
      }
    }
  }

  lemma LeaveEdge(inv: Inventory, graph: Option<Snapshot>, pending: bool, blockers: Blockers, subject: Id,
          done: set<OpaqueId>, n: nat)
    requires InEdge(inv, graph, pending, blockers, subject, done, n)
    requires forall item :: item in Named(inv.items, subject) ==> item.opaqueId in done
    ensures AllDone(inv, graph, pending, blockers, n + 1)
  {
    var next := EdgesDone(n + 1);
    forall k | 0 <= k < |inv.items| ensures At(inv, graph, pending, blockers, next, k) {
      assert inv.items[k] in inv.items;
      assert inv.items[k].member == subject ==> inv.items[k] in Named(inv.items, subject);
      assert At(inv, graph, pending, blockers, PhaseIn(inv.items[k], subject, done, n), k);
    }
  }

  lemma EdgeStep(inv: Inventory, graph: Option<Snapshot>, pending: bool, blockers: Blockers, n: nat,
          done: set<OpaqueId>, i: nat, more: set<Blocker>)
    requires inv.Valid() && n < |EdgesOf(inv, graph)| && i < |inv.items|
    requires var edges := EdgesOf(inv, graph);
      && inv.items[i].member == edges[n].subject && inv.items[i].opaqueId !in done
      && InEdge(inv, graph, pending, blockers, edges[n].subject, done, n)
      && forall b :: b in more <==> EdgeAdds(inv, graph, pending, edges, n, b)
    ensures inv.items[i].opaqueId in blockers
    ensures InEdge(inv, graph, pending, Add(blockers, inv.items[i].opaqueId, more), EdgesOf(inv, graph)[n].subject,
        done + {inv.items[i].opaqueId}, n)
  {
    var edges, item := EdgesOf(inv, graph), inv.items[i];
    assert At(inv, graph, pending, blockers, PhaseIn(item, edges[n].subject, done, n), i);
    var done', blockers' := done + {item.opaqueId}, Add(blockers, item.opaqueId, more);
    forall b {
      AppliesNext(inv, graph, pending, edges, n, item, b);
    }
    AddHere(inv, graph, pending, blockers, EdgesDone(n), EdgesDone(n + 1), i, more);
    forall k | 0 <= k < |inv.items|
        ensures At(inv, graph, pending, blockers', PhaseIn(inv.items[k], edges[n].subject, done', n), k)
    {
      if k != i {
        assert At(inv, graph, pending, blockers, PhaseIn(inv.items[k], edges[n].subject, done, n), k);
        AddElsewhere(inv, graph, pending, blockers, PhaseIn(inv.items[k], edges[n].subject, done, n), i, k, more);
        assert inv.items[k].opaqueId != item.opaqueId;
      }
    }
  }

  /** Whether a dependency shows blockers does not depend on how far the edge's
      own subjects have come. */
  lemma DependencyShows(inv: Inventory, graph: Option<Snapshot>, pending: bool, blockers: Blockers, n: nat,
          done: set<OpaqueId>, item: NormalizedItem, k: nat)
    requires n < |EdgesOf(inv, graph)| && k < |inv.items|
    requires item in inv.items && item.member == EdgesOf(inv, graph)[n].subject && item.opaqueId !in done
    requires InEdge(inv, graph, pending, blockers, EdgesOf(inv, graph)[n].subject, done, n)
    ensures inv.items[k].opaqueId in blockers
    ensures blockers[inv.items[k].opaqueId] != {} <==>
        Held(inv, graph, pending, inv.items[k]) || Subject(EdgesOf(inv, graph), n, inv.items[k].member)
  {
    var edges, dep := EdgesOf(inv, graph), inv.items[k];
    var phase := PhaseIn(dep, edges[n].subject, done, n);
    assert At(inv, graph, pending, blockers, phase, k);
    assert blockers[dep.opaqueId] != {} <==> exists b :: b in blockers[dep.opaqueId];
    BlockedAfter(inv, graph, pending, edges, phase.n, dep);
    if dep.member == edges[n].subject && dep.opaqueId in done {
      assert SharesMember(inv.items, dep);
      assert Settled(inv, graph, pending, dep, MemberIdentityAmbiguous);
    }
    if b :| Applies(inv, graph, pending, edges, phase.n, dep, b) {
      assert Known(inv, graph, pending, phase, dep, b);
    }
  }

  /** `any(blockers[dep] for dep in dependencies)`. */
  method AnyBlocked(inv: Inventory, graph: Option<Snapshot>, ghost pending: bool, blockers: Blockers, n: nat,
          ghost done: set<OpaqueId>, ghost item: NormalizedItem, dependencies: seq<NormalizedItem>)
    returns (blocked: bool)
    requires n < |EdgesOf(inv, graph)| && dependencies == Named(inv.items, EdgesOf(inv, graph)[n].target)
    requires item in inv.items && item.member == EdgesOf(inv, graph)[n].subject && item.opaqueId !in done
    requires InEdge(inv, graph, pending, blockers, EdgesOf(inv, graph)[n].subject, done, n)
    ensures blocked <==> WaitsOnBlocked(inv, graph, pending, EdgesOf(inv, graph), n)
  {
    ghost var edges := EdgesOf(inv, graph);
    blocked := false;
    for d := 0 to |dependencies|
      invariant blocked <==> exists c :: 0 <= c < d && Unready(inv, graph, pending, edges, n, dependencies[c])
    {
      assert dependencies[d] in dependencies;
      ghost var k :| 0 <= k < |inv.items| && inv.items[k] == dependencies[d];
      DependencyShows(inv, graph, pending, blockers, n, done, item, k);
      if blockers[dependencies[d].opaqueId] != {} {
        blocked := true;
      }
    }
    if c :| 0 <= c < |dependencies| && Unready(inv, graph, pending, edges, n, dependencies[c]) {
      assert dependencies[c] in dependencies;
    }
    if WaitsOnBlocked(inv, graph, pending, edges, n) {
      var dep :| dep in inv.items && dep.member == edges[n].target && Unready(inv, graph, pending, edges, n, dep);
      assert dep in dependencies;
    }
  }

  /** What the edge adds to the item of its subject that is next in line. */
  method Additions(inv: Inventory, graph: Option<Snapshot>, ghost pending: bool, blockers: Blockers, n: nat,
          ghost done: set<OpaqueId>, ghost item: NormalizedItem, dependencies: seq<NormalizedItem>)
    returns (more: set<Blocker>)
    requires n < |EdgesOf(inv, graph)| && dependencies == Named(inv.items, EdgesOf(inv, graph)[n].target)
    requires item in inv.items && item.member == EdgesOf(inv, graph)[n].subject && item.opaqueId !in done
    requires InEdge(inv, graph, pending, blockers, EdgesOf(inv, graph)[n].subject, done, n)
    ensures forall b :: b in more <==> EdgeAdds(inv, graph, pending, EdgesOf(inv, graph), n, b)
  {
    NamedPresent(inv.items, EdgesOf(inv, graph)[n].target);
    if dependencies == [] {
      return {DependencyOutsideInventory};
    }
    var blocked := AnyBlocked(inv, graph, pending, blockers, n, done, item, dependencies);
    more := {DependencyNotComplete} + if blocked then {DependencyBlocked} else {};
  }

  /** One edge: every item of its subject gains the blockers the edge adds. */
  method EdgeBody(inv: Inventory, graph: Option<Snapshot>, ghost pending: bool, byMember: map<Id, seq<NormalizedItem>>,
          start: Blockers, n: nat)
    returns (blockers: Blockers)
    requires inv.Valid() && n < |EdgesOf(inv, graph)| && forall id :: Group(byMember, id) == Named(inv.items, id)
    requires AllDone(inv, graph, pending, start, n)
    ensures blockers.Keys == start.Keys && AllDone(inv, graph, pending, blockers, n + 1)
  {
    var edge := EdgesOf(inv, graph)[n];
    var subjects, dependencies := Group(byMember, edge.subject), Group(byMember, edge.target);
    DistinctNamed(inv.items, edge.subject);
    EnterEdge(inv, graph, pending, start, n);
    blockers := start;
    ghost var done: set<OpaqueId> := {};
    for s := 0 to |subjects|
      invariant blockers.Keys == start.Keys && done == OpaqueIds(subjects[..s])
      invariant InEdge(inv, graph, pending, blockers, edge.subject, done, n)
    {
      var item := subjects[s];
      assert item in subjects;
      ghost var i :| 0 <= i < |inv.items| && inv.items[i] == item;
      NotYetDone(inv, subjects, s);
      var more := Additions(inv, graph, pending, blockers, n, done, item, dependencies);
      EdgeStep(inv, graph, pending, blockers, n, done, i, more);
      blockers := Add(blockers, item.opaqueId, more);
      done := done + {item.opaqueId};
      assert subjects[..s + 1] == subjects[..s] + [item];
    }
    assert subjects[..|subjects|] == subjects;
    LeaveEdge(inv, graph, pending, blockers, edge.subject, done, n);
  }

  lemma NamedPresent(items: seq<NormalizedItem>, id: Id)
    ensures Named(items, id) == [] <==> !Present(items, id)
  {
    if Named(items, id) != [] {
      assert Named(items, id)[0] in Named(items, id);
    }
    if item :| item in items && item.member == id {
      assert item in Named(items, id);
    }
  }

  lemma NotYetDone(inv: Inventory, subjects: seq<NormalizedItem>, s: nat)
    requires inv.Valid() && s < |subjects| && Distinct(subjects) && forall item :: item in subjects ==>
        item in inv.items
    ensures subjects[s].opaqueId !in OpaqueIds(subjects[..s])
  {
    forall item | item in subjects[..s] ensures item.opaqueId != subjects[s].opaqueId {
      if item.opaqueId == subjects[s].opaqueId {
        SameIdSameItem(inv, item, subjects[s]);
      }
    }
  }

  /** What a graph digest covers. */
  datatype GraphContent = GraphContent(members: seq<GraphMember>, edges: seq<GraphEdge>)

  datatype SelectionDecision = SelectionDecision(opaqueId: OpaqueId, runnable: bool, blockers: set<Blocker>)

  /** Digests are the values they cover. */
  datatype RunnableSelection = RunnableSelection(
    inventory: Inventory,
    graph: Option<GraphContent>,
    decisions: seq<SelectionDecision>,
    runnable: seq<OpaqueId>)

  function DecisionKey(d: SelectionDecision): Key {
    Key(d.opaqueId, 0, 0)
  }

  /** The decision states exactly the blockers of the item, and whether there are none. */
  ghost predicate Decides(inv: Inventory, graph: Option<Snapshot>, pending: bool, item: NormalizedItem,
          d: SelectionDecision)
  {
    var edges := EdgesOf(inv, graph);
    && d.opaqueId == item.opaqueId
    && (forall b :: b in d.blockers <==> Applies(inv, graph, pending, edges, |edges|, item, b))
    && (d.runnable <==> Eligible(inv, graph, pending, item))
  }

  ghost predicate OfSomeItem(inv: Inventory, graph: Option<Snapshot>, pending: bool, d: SelectionDecision) {
    exists item :: item in inv.items && Decides(inv, graph, pending, item, d)
  }

  ghost predicate IsDecided(inv: Inventory, graph: Option<Snapshot>, pending: bool, item: NormalizedItem,
          decisions: seq<SelectionDecision>)
  {
    exists d :: d in decisions && Decides(inv, graph, pending, item, d)
  }

  /** One decision for each item, in ascending order of the identifiers. */
  ghost predicate AreDecisions(inv: Inventory, graph: Option<Snapshot>, pending: bool,
          decisions: seq<SelectionDecision>)
  {
    && Ascending(decisions, DecisionKey) && |decisions| == |inv.items|
    && (forall d :: d in decisions ==> OfSomeItem(inv, graph, pending, d))
    && (forall item :: item in inv.items ==> IsDecided(inv, graph, pending, item, decisions))
  }

  /** `select_runnable_work`: every item's exact blockers in the order of its
      identifier, and the identifiers of exactly the items that the rule admits. */
  method SelectRunnable(inv: Inventory, graph: Option<Snapshot>, pending: bool) returns (selection: RunnableSelection)
    requires inv.Valid()
    ensures selection.inventory == inv
    ensures selection.graph == if Bound(inv, graph) then Some(GraphContent(graph.value.members, graph.value.edges))
        else None
    ensures AreDecisions(inv, graph, pending, selection.decisions)
    ensures IsSelection(inv, graph, pending, selection.runnable)
  {
    var byMember := GroupByMember(inv.items);
    var blockers := InitialBlockers(inv, graph, pending);
    blockers := ItemPass(inv, graph, pending, byMember, blockers);
    blockers := GraphPass(inv, graph, pending, blockers);
    var edges := EdgesOf(inv, graph);
    for n := 0 to |edges|
      invariant blockers.Keys == OpaqueIds(inv.items)
      invariant AllDone(inv, graph, pending, blockers, n)
    {
      blockers := EdgeBody(inv, graph, pending, byMember, blockers, n);
    }
    var runnable := Ready(inv, graph, pending, blockers);
    var decisions := Decisions(inv, graph, pending, blockers);
    var digest := if Bound(inv, graph) then Some(GraphContent(graph.value.members, graph.value.edges)) else None;
    selection := RunnableSelection(inv, digest, decisions, runnable);
  }

  /** The decision of the k-th item, in the order of the inventory. */
  ghost predicate DecidesAt(inv: Inventory, graph: Option<Snapshot>, pending: bool, raw: seq<SelectionDecision>, k: int)
  {
    0 <= k < |raw| <= |inv.items| && Decides(inv, graph, pending, inv.items[k], raw[k])
  }

  method Decisions(inv: Inventory, graph: Option<Snapshot>, pending: bool, blockers: Blockers)
    returns (decisions: seq<SelectionDecision>)
    requires inv.Valid() && AllDone(inv, graph, pending, blockers, |EdgesOf(inv, graph)|)
    ensures AreDecisions(inv, graph, pending, decisions)
  {
    var raw: seq<SelectionDecision> := [];
    for k := 0 to |inv.items|
      invariant |raw| == k && forall c :: 0 <= c < k ==> DecidesAt(inv, graph, pending, raw, c)
    {
      assert At(inv, graph, pending, blockers, EdgesDone(|EdgesOf(inv, graph)|), k);
      var reasons := blockers[inv.items[k].opaqueId];
      var d := SelectionDecision(inv.items[k].opaqueId, reasons == {}, reasons);
      DecisionIsExact(inv, graph, pending, blockers, k, d);
      ghost var before := raw;
      raw := raw + [d];
      forall c | 0 <= c < k + 1 ensures DecidesAt(inv, graph, pending, raw, c) {
        if c < k {
          assert DecidesAt(inv, graph, pending, before, c);
        }
      }
    }
    decisions := SortBy(raw, DecisionKey);
    SortedDecisions(inv, graph, pending, raw);
  }

  lemma DecisionIsExact(inv: Inventory, graph: Option<Snapshot>, pending: bool, blockers: Blockers, k: nat,
          d: SelectionDecision)
    requires k < |inv.items| && At(inv, graph, pending, blockers, EdgesDone(|EdgesOf(inv, graph)|), k)
    requires var reasons := blockers[inv.items[k].opaqueId];
      d == SelectionDecision(inv.items[k].opaqueId, reasons == {}, reasons)
    ensures Decides(inv, graph, pending, inv.items[k], d)
  {
    var edges, item := EdgesOf(inv, graph), inv.items[k];
    EmptyMeansEligible(inv, graph, pending, blockers, k);
    forall b ensures b in d.blockers <==> Applies(inv, graph, pending, edges, |edges|, item, b) {
      assert b in blockers[item.opaqueId] <==> Known(inv, graph, pending, EdgesDone(|edges|), item, b);
    }
  }

  lemma SortedDecisions(inv: Inventory, graph: Option<Snapshot>, pending: bool, raw: seq<SelectionDecision>)
    requires inv.Valid() && |raw| == |inv.items| && forall c :: 0 <= c < |raw| ==>
        DecidesAt(inv, graph, pending, raw, c)
    ensures AreDecisions(inv, graph, pending, SortBy(raw, DecisionKey))
  {
    var decisions := SortBy(raw, DecisionKey);
    DecisionKeysDiffer(inv, graph, pending, raw);
    SortAscends(raw, DecisionKey);
    SortMembers(raw, DecisionKey);
    forall d | d in decisions ensures OfSomeItem(inv, graph, pending, d) {
      ItemOfDecision(inv, graph, pending, raw, d);
    }
    forall item | item in inv.items ensures IsDecided(inv, graph, pending, item, decisions) {
      DecisionOfItem(inv, graph, pending, raw, item, decisions);
    }
  }

  lemma DecisionKeysDiffer(inv: Inventory, graph: Option<Snapshot>, pending: bool, raw: seq<SelectionDecision>)
    requires inv.Valid() && |raw| == |inv.items| && forall c :: 0 <= c < |raw| ==>
        DecidesAt(inv, graph, pending, raw, c)
    ensures KeysDistinct(raw, DecisionKey)
  {
    forall i, j | 0 <= i < j < |raw| ensures DecisionKey(raw[i]) != DecisionKey(raw[j]) {
      assert DecidesAt(inv, graph, pending, raw, i) && DecidesAt(inv, graph, pending, raw, j);
    }
  }

  lemma ItemOfDecision(inv: Inventory, graph: Option<Snapshot>, pending: bool, raw: seq<SelectionDecision>,
          d: SelectionDecision)
    requires |raw| == |inv.items| && d in raw && forall c :: 0 <= c < |raw| ==> DecidesAt(inv, graph, pending, raw, c)
    ensures OfSomeItem(inv, graph, pending, d)
  {
    var c :| 0 <= c < |raw| && raw[c] == d;
    assert DecidesAt(inv, graph, pending, raw, c) && inv.items[c] in inv.items;
  }

  lemma DecisionOfItem(inv: Inventory, graph: Option<Snapshot>, pending: bool, raw: seq<SelectionDecision>,
          item: NormalizedItem, decisions: seq<SelectionDecision>)
    requires |raw| == |inv.items| && item in inv.items && forall c :: 0 <= c < |raw| ==>
        DecidesAt(inv, graph, pending, raw, c)
    requires forall d :: d in raw ==> d in decisions
    ensures IsDecided(inv, graph, pending, item, decisions)
  {
    var c :| 0 <= c < |inv.items| && inv.items[c] == item;
    assert DecidesAt(inv, graph, pending, raw, c) && raw[c] in raw;
  }

  /** Exactly the eligible items, in ascending order of their identifiers. */
  ghost predicate IsSelection(inv: Inventory, graph: Option<Snapshot>, pending: bool, runnable: seq<OpaqueId>) {
    && (forall i, j :: 0 <= i < j < |runnable| ==> runnable[i] < runnable[j])
    && (forall id :: id in runnable <==>
        exists item :: item in inv.items && item.opaqueId == id && Eligible(inv, graph, pending, item))
  }

  method Ready(inv: Inventory, graph: Option<Snapshot>, pending: bool, blockers: Blockers)
    returns (runnable: seq<OpaqueId>)
    requires inv.Valid() && AllDone(inv, graph, pending, blockers, |EdgesOf(inv, graph)|)
    ensures IsSelection(inv, graph, pending, runnable)
  {
    runnable := [];
    for k := 0 to |inv.items|
      invariant forall i, j :: 0 <= i < j < |runnable| ==> runnable[i] < runnable[j]
      invariant forall id :: id in runnable <==>
          exists c :: 0 <= c < k && inv.items[c].opaqueId == id && Eligible(inv, graph, pending, inv.items[c])
    {
      ghost var n := |EdgesOf(inv, graph)|;
      assert At(inv, graph, pending, blockers, EdgesDone(n), k);
      UnblockedMeansEligible(inv, graph, pending, inv.items[k]);
      EmptyMeansEligible(inv, graph, pending, blockers, k);
      if blockers[inv.items[k].opaqueId] == {} {
        runnable := InsertNew(inv.items[k].opaqueId, runnable);
      }
    }
  }

  lemma EmptyMeansEligible(inv: Inventory, graph: Option<Snapshot>, pending: bool, blockers: Blockers, k: nat)
    requires k < |inv.items| && At(inv, graph, pending, blockers, EdgesDone(|EdgesOf(inv, graph)|), k)
    ensures blockers[inv.items[k].opaqueId] == {} <==> Eligible(inv, graph, pending, inv.items[k])
  {
    var edges, item := EdgesOf(inv, graph), inv.items[k];
    UnblockedMeansEligible(inv, graph, pending, item);
    forall b ensures b in blockers[item.opaqueId] <==> Applies(inv, graph, pending, edges, |edges|, item, b) {
      assert b in blockers[item.opaqueId] <==> Known(inv, graph, pending, EdgesDone(|edges|), item, b);
    }
    assert blockers[item.opaqueId] == {} <==> forall b :: b !in blockers[item.opaqueId];
  }
}
