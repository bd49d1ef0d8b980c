/** Normalization of scanned records: grouping by mechanical identity, with
    explicit ambiguity and no evidence lost. */
module SourceNormalize {
  import opened Prelude
  import opened GraphOrdering
  import opened SourceScan
  import opened Selection

  datatype Record = Record(source: nat, item: SourceItem)

  /** What one normalized item stands for. */
  datatype Profile = Profile(mechanical: nat, member: nat, content: nat)

  /** The digest of an item's profile and sources, by rank; any injective function. */
  type Sealer = (Profile, seq<nat>) -> nat

  ghost predicate Injective(seal: Sealer) {
    forall t, s, u, v :: seal(t, s) == seal(u, v) ==> t == u && s == v
  }

  function ProfileOf(r: Record): Profile {
    Profile(r.item.mechanical, r.item.member, r.item.content)
  }

  // ---------------------------------------------------------- the declared rule

  ghost function AllProfiles(records: seq<Record>): set<Profile> {
    set r | r in records :: ProfileOf(r)
  }

  /** The sources of the records with this profile, once for each record. */
  function SourcesOf(records: seq<Record>, t: Profile): (r: seq<nat>) {
    if records == [] then []
    else SourcesOf(records[..|records| - 1], t) + if ProfileOf(records[|records| - 1]) == t then
        [records[|records| - 1].source] else []
  }

  /** The mechanical identity determines member and content, and the content
      determines the mechanical identity, across all records. */
  ghost predicate Determined(records: seq<Record>, t: Profile) {
    forall r :: r in records ==>
      && (r.item.mechanical == t.mechanical ==> r.item.member == t.member && r.item.content == t.content)
      && (r.item.content == t.content ==> r.item.mechanical == t.mechanical)
  }

  ghost predicate StandsFor(records: seq<Record>, seal: Sealer, t: Profile, item: NormalizedItem) {
    var sources := SortBy(SourcesOf(records, t), NatKey);
    && item.opaqueId == seal(t, sources) && item.member == t.member && item.content == t.content
    && item.mechanical == t.mechanical && item.sources == sources
    && (item.ambiguous <==> !Determined(records, t))
  }

  function ItemKey(item: NormalizedItem): Key {
    Key(item.member, item.opaqueId, 0)
  }

  function ProfileIn(item: NormalizedItem): Profile {
    Profile(item.mechanical, item.member, item.content)
  }

  /** One item for each profile that occurs, in order. */
  ghost predicate IsNormalized(records: seq<Record>, seal: Sealer, items: seq<NormalizedItem>) {
    && Ascending(items, ItemKey)
    && (forall item :: item in items ==>
        ProfileIn(item) in AllProfiles(records) && StandsFor(records, seal, ProfileIn(item), item))
    && (forall t :: t in AllProfiles(records) ==> exists item :: item in items && ProfileIn(item) == t)
  }

  // --------------------------------------------------------------- the grouping

  function ByMechanical(records: seq<Record>, mechanical: nat): seq<Record> {
    Filter(records, (r: Record) => r.item.mechanical == mechanical)
  }

  function MechanicalsOf(records: seq<Record>, content: nat): set<nat> {
    set r | r in records && r.item.content == content :: r.item.mechanical
  }

  ghost predicate IsGrouped(records: seq<Record>, grouped: map<nat, seq<Record>>) {
    && grouped.Keys == (set r | r in records :: r.item.mechanical)
    && (forall m :: m in grouped ==> grouped[m] == ByMechanical(records, m))
  }

  ghost predicate IsIndexed(records: seq<Record>, contents: map<nat, set<nat>>) {
    && contents.Keys == (set r | r in records :: r.item.content)
    && (forall c :: c in contents ==> contents[c] == MechanicalsOf(records, c))
  }

  ghost predicate IsGrouping(records: seq<Record>, grouped: map<nat, seq<Record>>, contents: map<nat, set<nat>>) {
    IsGrouped(records, grouped) && IsIndexed(records, contents)
  }

  lemma GroupNext(records: seq<Record>, i: nat, m: nat)
    requires i < |records|
    ensures ByMechanical(records[..i + 1], m) == ByMechanical(records[..i], m) + if records[i].item.mechanical
        == m then [records[i]] else []
  {
    assert records[..i + 1][..i] == records[..i];
  }

  lemma {:induction false} NoGroup(records: seq<Record>, m: nat)
    requires forall r :: r in records ==> r.item.mechanical != m
    ensures ByMechanical(records, m) == []
  {
    if records != [] {
      NoGroup(records[..|records| - 1], m);
    }
  }

  /** `grouped` and `content_identities`, filled record by record. */
  method GroupRecords(records: seq<Record>) returns (grouped: map<nat, seq<Record>>, contents: map<nat, set<nat>>)
    ensures IsGrouping(records, grouped, contents)
  {
    grouped, contents := map[], map[];
    for i := 0 to |records|
      invariant IsGrouping(records[..i], grouped, contents)
    {
      grouped, contents := AddRecord(records, i, grouped, contents);
    }
    assert records[..|records|] == records;
  }

  method AddRecord(records: seq<Record>, i: nat, grouped: map<nat, seq<Record>>, contents: map<nat, set<nat>>)
    returns (grouped': map<nat, seq<Record>>, contents': map<nat, set<nat>>)
    requires i < |records| && IsGrouping(records[..i], grouped, contents)
    ensures IsGrouping(records[..i + 1], grouped', contents')
  {
    var r := records[i];
    var m, c := r.item.mechanical, r.item.content;
    var group := if m in grouped then grouped[m] else [];
    var known := if c in contents then contents[c] else {};
    GroupedStep(records, i, grouped, group);
    IndexedStep(records, i, contents, known);
    grouped' := grouped[m := group + [r]];
    contents' := contents[c := known + {m}];
  }

  lemma GroupedStep(records: seq<Record>, i: nat, grouped: map<nat, seq<Record>>, group: seq<Record>)
    requires i < |records| && IsGrouped(records[..i], grouped)
    requires var m := records[i].item.mechanical; group == if m in grouped then grouped[m] else []
    ensures IsGrouped(records[..i + 1], grouped[records[i].item.mechanical := group + [records[i]]])
  {
    var r, m := records[i], records[i].item.mechanical;
    assert records[..i + 1] == records[..i] + [r];
    if m !in grouped {
      NoGroup(records[..i], m);
    }
    forall k | k in grouped || k == m ensures grouped[m := group + [r]][k] == ByMechanical(records[..i + 1], k) {
      GroupNext(records, i, k);
    }
  }

  lemma IndexedStep(records: seq<Record>, i: nat, contents: map<nat, set<nat>>, known: set<nat>)
    requires i < |records| && IsIndexed(records[..i], contents)
    requires var c := records[i].item.content; known == if c in contents then contents[c] else {}
    ensures IsIndexed(records[..i + 1], contents[records[i].item.content := known + {records[i].item.mechanical}])
  {
    var r, c := records[i], records[i].item.content;
    assert records[..i + 1] == records[..i] + [r];
    assert MechanicalsOf(records[..i + 1], c) == known + {r.item.mechanical};
    forall k | k in contents && k != c ensures MechanicalsOf(records[..i + 1], k) == MechanicalsOf(records[..i], k) {
    }
  }

  // -------------------------------------------------------------- normalization

  lemma SingletonSet(s: set<nat>, x: nat)
    requires x in s
    ensures |s| == 1 <==> s == {x}
  {
    if |s| == 1 {
      SubsetOfSameSize({x}, s);
    }
  }

  /** Sources found within the group are the sources found anywhere. */
  lemma {:induction false} SourcesInGroup(records: seq<Record>, p: Profile)
    ensures SourcesOf(ByMechanical(records, p.mechanical), p) == SourcesOf(records, p)
  {
    if records != [] {
      var init, last := records[..|records| - 1], records[|records| - 1];
      SourcesInGroup(init, p);
      var group := ByMechanical(init, p.mechanical);
      assert (group + [last])[..|group|] == group;
    }
  }

  ghost predicate AmbiguousGroup(group: seq<Record>, contents: map<nat, set<nat>>) {
    || |Members(group)| != 1 || |Contents(group)| != 1
    || exists c :: c in Contents(group) && c in contents && |contents[c]| != 1
  }

  function Members(group: seq<Record>): set<nat> {
    set r | r in group :: r.item.member
  }

  function Contents(group: seq<Record>): set<nat> {
    set r | r in group :: r.item.content
  }

  /** The counts taken over a group decide whether its profiles are determined. */
  lemma AmbiguousMeansUndetermined(records: seq<Record>, contents: map<nat, set<nat>>, r: Record)
    requires r in records && IsIndexed(records, contents)
    ensures AmbiguousGroup(ByMechanical(records, r.item.mechanical), contents) <==> !Determined(records, ProfileOf(r))
  {
    var group, p := ByMechanical(records, r.item.mechanical), ProfileOf(r);
    assert r in group;
    SingletonSet(Members(group), p.member);
    SingletonSet(Contents(group), p.content);
    SingletonSet(contents[p.content], p.mechanical);
    if Members(group) == {p.member} && Contents(group) == {p.content} {
      OneContent(records, contents, group, p);
      forall x | x in records && x.item.mechanical == p.mechanical
          ensures x.item.member == p.member && x.item.content == p.content
      {
        assert x in group;
        assert x.item.member in Members(group) && x.item.content in Contents(group);
      }
    } else {
      Undetermined(records, group, p);
    }
  }

  lemma Undetermined(records: seq<Record>, group: seq<Record>, p: Profile)
    requires group == ByMechanical(records, p.mechanical) && p.member in Members(group) && p.content in Contents(group)
    requires Members(group) != {p.member} || Contents(group) != {p.content}
    ensures !Determined(records, p)
  {
    if Members(group) != {p.member} {
      var x :| x in Members(group) && x != p.member;
      var r :| r in group && r.item.member == x;
    } else {
      var x :| x in Contents(group) && x != p.content;
      var r :| r in group && r.item.content == x;
    }
  }

  lemma OneContent(records: seq<Record>, contents: map<nat, set<nat>>, group: seq<Record>, p: Profile)
    requires IsIndexed(records, contents) && Contents(group) == {p.content} && p.content in contents
    requires p.mechanical in contents[p.content]
    ensures (exists c :: c in Contents(group) && c in contents && |contents[c]| != 1) <==>
        contents[p.content] != {p.mechanical}
    ensures contents[p.content] == {p.mechanical} <==>
        forall x :: x in records && x.item.content == p.content ==> x.item.mechanical == p.mechanical
  {
    SingletonSet(contents[p.content], p.mechanical);
    assert p.content in Contents(group);
    if contents[p.content] == {p.mechanical} {
      forall x | x in records && x.item.content == p.content ensures x.item.mechanical == p.mechanical {
        assert x.item.mechanical in MechanicalsOf(records, p.content);
      }
    } else {
      var m :| m in contents[p.content] && m != p.mechanical;
      assert m in MechanicalsOf(records, p.content);
    }
  }

  method IsAmbiguous(group: seq<Record>, contents: map<nat, set<nat>>) returns (ambiguous: bool)
    requires forall r :: r in group ==> r.item.content in contents
    ensures ambiguous <==> AmbiguousGroup(group, contents)
  {
    var ids := Contents(group);
    if |Members(group)| != 1 || |ids| != 1 {
      return true;
    }
    var c :| c in ids;
    SingletonSet(ids, c);
    ambiguous := |contents[c]| != 1;
  }

  /** The items so far stand for exactly the profiles in `done`, one each. */
  ghost predicate Covers(records: seq<Record>, seal: Sealer, items: seq<NormalizedItem>, done: set<Profile>) {
    && (forall i, j :: 0 <= i < j < |items| ==> ProfileIn(items[i]) != ProfileIn(items[j]))
    && (forall item :: item in items ==> ProfileIn(item) in done && StandsFor(records, seal, ProfileIn(item), item))
    && (forall p :: p in done ==> exists item :: item in items && ProfileIn(item) == p)
  }

  lemma CoversMore(records: seq<Record>, seal: Sealer, items: seq<NormalizedItem>, done: set<Profile>,
          item: NormalizedItem)
    requires Covers(records, seal, items, done) && ProfileIn(item) !in done
    requires StandsFor(records, seal, ProfileIn(item), item)
    ensures Covers(records, seal, items + [item], done + {ProfileIn(item)})
  {
    var items' := items + [item];
    forall i, j | 0 <= i < j < |items'| ensures ProfileIn(items'[i]) != ProfileIn(items'[j]) {
      assert items'[i] in items;
    }
    forall p | p in done + {ProfileIn(item)} ensures exists x :: x in items' && ProfileIn(x) == p {
      if p in done {
        var x :| x in items && ProfileIn(x) == p;
        assert x in items';
      } else {
        assert item in items';
      }
    }
  }

  /** Distinct profiles have distinct digests, so the final order is strict. */
  lemma CoveredKeysDistinct(records: seq<Record>, seal: Sealer, items: seq<NormalizedItem>, done: set<Profile>)
    requires Injective(seal) && Covers(records, seal, items, done)
    ensures KeysDistinct(items, ItemKey)
  {
    forall i, j | 0 <= i < j < |items| ensures ItemKey(items[i]) != ItemKey(items[j]) {
      assert items[i] in items && items[j] in items;
      assert StandsFor(records, seal, ProfileIn(items[i]), items[i])
          && StandsFor(records, seal, ProfileIn(items[j]), items[j]);
    }
  }

  ghost function ProfilesAmong(records: seq<Record>, mechanicals: set<nat>): set<Profile> {
    set r | r in records && r.item.mechanical in mechanicals :: ProfileOf(r)
  }

  /** One group: an item for each of its profiles. */
  method NormalizeGroup(records: seq<Record>, seal: Sealer, m: nat, group: seq<Record>, contents: map<nat, set<nat>>,
          start: seq<NormalizedItem>, ghost before: set<Profile>)
    returns (items: seq<NormalizedItem>)
    requires group == ByMechanical(records, m) && IsIndexed(records, contents)
    requires Covers(records, seal, start, before) && forall p :: p in before ==> p.mechanical != m
    ensures Covers(records, seal, items, before + ProfilesAmong(records, {m}))
  {
    GroupFacts(records, m, group, contents);
    var ambiguous := IsAmbiguous(group, contents);
    var remaining := set r | r in group :: ProfileOf(r);
    ghost var all, done := remaining, before;
    items := start;
    while remaining != {}
      invariant Covers(records, seal, items, done)
      invariant Split(before, all, remaining, done)
      decreases remaining
    {
      var p :| p in remaining;
      OneFewer(before, all, remaining, done, p);
      items := AddItem(records, seal, m, group, contents, ambiguous, items, done, p);
      remaining := remaining - {p};
      done := done + {p};
    }
  }

  /** Profiles done are those done before and those of the group not remaining. */
  ghost predicate Split(before: set<Profile>, all: set<Profile>, remaining: set<Profile>, done: set<Profile>) {
    remaining <= all && done == before + (all - remaining)
  }

  method AddItem(ghost records: seq<Record>, seal: Sealer, ghost m: nat, group: seq<Record>,
          ghost contents: map<nat, set<nat>>, ambiguous: bool, items: seq<NormalizedItem>, ghost done: set<Profile>,
          p: Profile)
    returns (items': seq<NormalizedItem>)
    requires IsIndexed(records, contents) && group == ByMechanical(records, m) && p.mechanical == m
    requires p in AllProfiles(records)
    requires (ambiguous <==> AmbiguousGroup(group, contents)) && Covers(records, seal, items, done) && p !in done
    ensures Covers(records, seal, items', done + {p})
  {
    var sources := SortBy(SourcesOf(group, p), NatKey);
    var item := NormalizedItem(seal(p, sources), p.member, p.content, p.mechanical, sources, ambiguous);
    GroupItemStands(records, seal, m, group, contents, p, item);
    CoversMore(records, seal, items, done, item);
    items' := items + [item];
  }

  lemma OneFewer(before: set<Profile>, all: set<Profile>, remaining: set<Profile>, done: set<Profile>, p: Profile)
    requires Split(before, all, remaining, done) && p in remaining && p !in before
    ensures p !in done && Split(before, all, remaining - {p}, done + {p})
  {
  }

  lemma GroupFacts(records: seq<Record>, m: nat, group: seq<Record>, contents: map<nat, set<nat>>)
    requires group == ByMechanical(records, m) && IsIndexed(records, contents)
    ensures forall r :: r in group ==> r.item.content in contents
    ensures (set r | r in group :: ProfileOf(r)) == ProfilesAmong(records, {m})
    ensures forall p :: p in ProfilesAmong(records, {m}) ==> p.mechanical == m && p in AllProfiles(records)
  {
  }

  lemma GroupItemStands(records: seq<Record>, seal: Sealer, m: nat, group: seq<Record>, contents: map<nat, set<nat>>,
          p: Profile, item: NormalizedItem)
    requires IsIndexed(records, contents) && group == ByMechanical(records, m) && p.mechanical == m
    requires p in AllProfiles(records)
    requires var sources := SortBy(SourcesOf(group, p), NatKey);
      item.opaqueId == seal(p, sources) && item.sources == sources && ProfileIn(item) == p
          && (item.ambiguous <==> AmbiguousGroup(group, contents))
    ensures StandsFor(records, seal, p, item)
  {
    SourcesInGroup(records, p);
    var r :| r in records && ProfileOf(r) == p;
    AmbiguousMeansUndetermined(records, contents, r);
  }

  /** `_normalize`: exactly one item for each profile, in order, with every
      source recorded and ambiguity explicit. */
  method Normalize(records: seq<Record>, seal: Sealer) returns (items: seq<NormalizedItem>)
    requires Injective(seal)
    ensures IsNormalized(records, seal, items)
  {
    var grouped, contents := GroupRecords(records);
    var raw: seq<NormalizedItem> := [];
    var remaining := grouped.Keys;
    ghost var done: set<nat> := {};
    while remaining != {}
      invariant remaining <= grouped.Keys && done == grouped.Keys - remaining
      invariant Covers(records, seal, raw, ProfilesAmong(records, done))
      decreases remaining
    {
      var m :| m in remaining;
      remaining := remaining - {m};
      raw := NormalizeGroup(records, seal, m, grouped[m], contents, raw, ProfilesAmong(records, done));
      assert ProfilesAmong(records, done) + ProfilesAmong(records, {m}) == ProfilesAmong(records, done + {m});
      done := done + {m};
    }
    assert ProfilesAmong(records, done) == AllProfiles(records);
    items := SortBy(raw, ItemKey);
    SortedCovers(records, seal, raw);
  }

  lemma SortedCovers(records: seq<Record>, seal: Sealer, raw: seq<NormalizedItem>)
    requires Injective(seal) && Covers(records, seal, raw, AllProfiles(records))
    ensures IsNormalized(records, seal, SortBy(raw, ItemKey))
  {
    CoveredKeysDistinct(records, seal, raw, AllProfiles(records));
    SortAscends(raw, ItemKey);
    SortMembers(raw, ItemKey);
    var items := SortBy(raw, ItemKey);
    forall p | p in AllProfiles(records) ensures exists item :: item in items && ProfileIn(item) == p {
      var item :| item in raw && ProfileIn(item) == p;
      assert item in items;
    }
  }

  // ---------------------------------------------------------------------- laws

  lemma NormalizedIdsDiffer(records: seq<Record>, seal: Sealer, items: seq<NormalizedItem>)
    requires Injective(seal) && IsNormalized(records, seal, items)
    ensures forall i, j :: 0 <= i < j < |items| ==>
        items[i].opaqueId != items[j].opaqueId && ProfileIn(items[i]) != ProfileIn(items[j])
  {
    forall i, j | 0 <= i < j < |items|
        ensures items[i].opaqueId != items[j].opaqueId && ProfileIn(items[i]) != ProfileIn(items[j])
    {
      assert items[i] in items && items[j] in items;
      assert StandsFor(records, seal, ProfileIn(items[i]), items[i])
          && StandsFor(records, seal, ProfileIn(items[j]), items[j]);
      assert Less(ItemKey(items[i]), ItemKey(items[j]));
    }
  }

  /** The normalized items always make a valid inventory. */
  lemma NormalizedIsValidInventory(records: seq<Record>, seal: Sealer, inv: Inventory)
    requires Injective(seal) && IsNormalized(records, seal, inv.items)
    ensures inv.Valid()
  {
    NormalizedIdsDiffer(records, seal, inv.items);
  }

  ghost function TotalSources(items: seq<NormalizedItem>): nat {
    if items == [] then 0 else TotalSources(items[..|items| - 1]) + |items[|items| - 1].sources|
  }

  /** How many records the profiles of `items` account for. */
  ghost function TotalFound(records: seq<Record>, items: seq<NormalizedItem>): nat {
    if items == [] then 0
    else TotalFound(records, items[..|items| - 1]) + |SourcesOf(records, ProfileIn(items[|items| - 1]))|
  }

  lemma {:induction false} SourcesAreFound(records: seq<Record>, seal: Sealer, items: seq<NormalizedItem>)
    requires forall item :: item in items ==> StandsFor(records, seal, ProfileIn(item), item)
    ensures TotalSources(items) == TotalFound(records, items)
  {
    if items != [] {
      SourcesAreFound(records, seal, items[..|items| - 1]);
      assert items[|items| - 1] in items;
    }
  }

  lemma {:induction false} NothingFound(items: seq<NormalizedItem>)
    ensures TotalFound([], items) == 0
  {
    if items != [] {
      NothingFound(items[..|items| - 1]);
    }
  }

  /** One more record is found by exactly the items of its profile. */
  lemma {:induction false} FoundNext(records: seq<Record>, r: Record, items: seq<NormalizedItem>)
    requires forall i, j :: 0 <= i < j < |items| ==> ProfileIn(items[i]) != ProfileIn(items[j])
    ensures TotalFound(records + [r], items)
         == TotalFound(records, items) + if exists k :: 0 <= k < |items| && ProfileIn(items[k]) == ProfileOf(r) then 1
             else 0
  {
    assert (records + [r])[..|records|] == records;
    if items != [] {
      var init := items[..|items| - 1];
      FoundNext(records, r, init);
      assert forall k :: 0 <= k < |init| ==> init[k] == items[k];
    }
  }

  lemma {:induction false} EverythingFound(records: seq<Record>, items: seq<NormalizedItem>)
    requires forall i, j :: 0 <= i < j < |items| ==> ProfileIn(items[i]) != ProfileIn(items[j])
    requires forall r :: r in records ==> exists k :: 0 <= k < |items| && ProfileIn(items[k]) == ProfileOf(r)
    ensures TotalFound(records, items) == |records|
  {
    if records == [] {
      NothingFound(items);
    } else {
      var init, last := records[..|records| - 1], records[|records| - 1];
      assert records == init + [last];
      assert forall r :: r in init ==> r in records;
      EverythingFound(init, items);
      FoundNext(init, last, items);
    }
  }

  /** No evidence is lost or invented: the items' sources number as many as the
      records that were scanned. */
  lemma NormalizationConserves(records: seq<Record>, seal: Sealer, items: seq<NormalizedItem>)
    requires Injective(seal) && IsNormalized(records, seal, items)
    ensures TotalSources(items) == |records|
  {
    NormalizedIdsDiffer(records, seal, items);
    SourcesAreFound(records, seal, items);
    forall r | r in records ensures exists k :: 0 <= k < |items| && ProfileIn(items[k]) == ProfileOf(r) {
      assert ProfileOf(r) in AllProfiles(records);
      var item :| item in items && ProfileIn(item) == ProfileOf(r);
      var k :| 0 <= k < |items| && items[k] == item;
    }
    EverythingFound(records, items);
  }

  // -------------------------------------------------------- order independence

  ghost predicate NonDecreasing(s: seq<nat>) {
    forall i, j :: 0 <= i < j < |s| ==> s[i] <= s[j]
  }

  lemma {:induction false} InsertKeepsOrder(x: nat, s: seq<nat>)
    requires NonDecreasing(s)
    ensures NonDecreasing(Insert(x, s, NatKey))
  {
    if s != [] && !Less(NatKey(x), NatKey(s[0])) {
      var rest := Insert(x, s[1..], NatKey);
      InsertKeepsOrder(x, s[1..]);
      forall j | 0 <= j < |rest| ensures s[0] <= rest[j] {
        assert rest[j] in multiset(rest);
        if rest[j] != x {
          assert rest[j] in s[1..];
        }
      }
    }
  }

  lemma {:induction false} SortedNonDecreasing(s: seq<nat>)
    ensures NonDecreasing(SortBy(s, NatKey))
  {
    if s != [] {
      SortedNonDecreasing(s[..|s| - 1]);
      InsertKeepsOrder(s[|s| - 1], SortBy(s[..|s| - 1], NatKey));
    }
  }

  lemma {:induction false} SameSorted(a: seq<nat>, b: seq<nat>)
    requires NonDecreasing(a) && NonDecreasing(b) && multiset(a) == multiset(b)
    ensures a == b
  {
    SameMembers(a, b);
    if a == [] {
      assert multiset(b) == multiset{};
    } else {
      assert a[0] in b && b[0] in a;
      assert a[0] == b[0];
      TailCount(a);
      TailCount(b);
      SameSorted(a[1..], b[1..]);
    }
  }

  lemma TailCount(s: seq<nat>)
    requires s != []
    ensures s == [s[0]] + s[1..] && multiset(s[1..]) == multiset(s) - multiset{s[0]}
  {
    assert s == [s[0]] + s[1..];
  }

  lemma {:induction false} SourcesConcat(a: seq<Record>, b: seq<Record>, p: Profile)
    ensures SourcesOf(a + b, p) == SourcesOf(a, p) + SourcesOf(b, p)
  {
    if b == [] {
      assert a + b == a;
    } else {
      SourcesConcat(a, b[..|b| - 1], p);
      assert (a + b)[..|a + b| - 1] == a + b[..|b| - 1];
    }
  }

  /** Which sources a profile has, counted, depends on the records only as a multiset. */
  lemma {:induction false} SameSourceCounts(a: seq<Record>, b: seq<Record>, p: Profile)
    requires multiset(a) == multiset(b)
    ensures multiset(SourcesOf(a, p)) == multiset(SourcesOf(b, p))
    decreases |a|
  {
    if a == [] {
      assert multiset(b) == multiset{};
      assert b == [];
    } else {
      var init, last := a[..|a| - 1], a[|a| - 1];
      assert a == init + [last];
      SameMembers(a, b);
      assert last in b;
      var k :| 0 <= k < |b| && b[k] == last;
      var front, back := b[..k], b[k + 1..];
      assert b == front + [last] + back;
      WithoutLast(init, last, front, back);
      SameSourceCounts(init, front + back, p);
      SourcesWithLast(init, last, front, back, p);
    }
  }

  lemma WithoutLast(init: seq<Record>, last: Record, front: seq<Record>, back: seq<Record>)
    requires multiset(init + [last]) == multiset(front + [last] + back)
    ensures multiset(init) == multiset(front + back)
  {
    assert multiset(init + [last]) == multiset(init) + multiset{last};
    assert multiset(front + [last] + back) == multiset(front) + multiset{last} + multiset(back);
    assert multiset(front + back) == multiset(front) + multiset(back);
    assert multiset(init) == multiset(init) + multiset{last} - multiset{last};
  }

  lemma SourcesWithLast(init: seq<Record>, last: Record, front: seq<Record>, back: seq<Record>, p: Profile)
    requires multiset(SourcesOf(init, p)) == multiset(SourcesOf(front + back, p))
    ensures multiset(SourcesOf(init + [last], p)) == multiset(SourcesOf(front + [last] + back, p))
  {
    SourcesConcat(front, back, p);
    SourcesConcat(front + [last], back, p);
    SourcesConcat(front, [last], p);
    SourcesConcat(init, [last], p);
  }

  lemma SameSources(a: seq<Record>, b: seq<Record>, p: Profile)
    requires multiset(a) == multiset(b)
    ensures SortBy(SourcesOf(a, p), NatKey) == SortBy(SourcesOf(b, p), NatKey)
  {
    SameSourceCounts(a, b, p);
    SortedNonDecreasing(SourcesOf(a, p));
    SortedNonDecreasing(SourcesOf(b, p));
    SameSorted(SortBy(SourcesOf(a, p), NatKey), SortBy(SourcesOf(b, p), NatKey));
  }

  lemma StandsForSame(a: seq<Record>, b: seq<Record>, seal: Sealer, x: NormalizedItem, y: NormalizedItem)
    requires multiset(a) == multiset(b) && ProfileIn(x) == ProfileIn(y)
    requires StandsFor(a, seal, ProfileIn(x), x) && StandsFor(b, seal, ProfileIn(y), y)
    ensures x == y
  {
    SameSources(a, b, ProfileIn(x));
    SameMembers(a, b);
  }

  /** The normalized items depend only on the multiset of scanned records: not on
      the order of pages, sources or records. */
  lemma NormalizationIgnoresOrder(a: seq<Record>, b: seq<Record>, seal: Sealer, items: seq<NormalizedItem>,
          items': seq<NormalizedItem>)
    requires multiset(a) == multiset(b)
    requires IsNormalized(a, seal, items) && IsNormalized(b, seal, items')
    ensures items == items'
  {
    SameMembers(a, b);
    assert AllProfiles(a) == AllProfiles(b);
    ItemsCarryOver(a, b, seal, items, items');
    ItemsCarryOver(b, a, seal, items', items);
    AscendingIsUnique(items, items', ItemKey);
  }

  lemma ItemsCarryOver(a: seq<Record>, b: seq<Record>, seal: Sealer, items: seq<NormalizedItem>,
          items': seq<NormalizedItem>)
    requires multiset(a) == multiset(b) && AllProfiles(a) == AllProfiles(b)
    requires IsNormalized(a, seal, items) && IsNormalized(b, seal, items')
    ensures forall x :: x in items ==> x in items'
  {
    forall x | x in items ensures x in items' {
      var y :| y in items' && ProfileIn(y) == ProfileIn(x);
      StandsForSame(a, b, seal, x, y);
    }
  }

  // ------------------------------------------------------- scanned observations

  /** The records of the observations, source by source. */
  function RecordsOf(observations: seq<Observation>): seq<Record> {
    if observations == [] then []
    else
      var last := observations[|observations| - 1];
      RecordsOf(observations[..|observations| - 1]) + FromSource(last.identity, last.items)
  }

  function FromSource(identity: nat, items: seq<SourceItem>): (r: seq<Record>)
    ensures |r| == |items| && forall i :: 0 <= i < |r| ==> r[i] == Record(identity, items[i])
  {
    seq(|items|, i requires 0 <= i < |items| => Record(identity, items[i]))
  }

  ghost function ScannedItems(observations: seq<Observation>): nat {
    if observations == [] then 0
    else ScannedItems(observations[..|observations| - 1]) + |observations[|observations| - 1].items|
  }

  lemma {:induction false} EveryItemIsARecord(observations: seq<Observation>)
    ensures |RecordsOf(observations)| == ScannedItems(observations)
  {
    if observations != [] {
      EveryItemIsARecord(observations[..|observations| - 1]);
    }
  }

  /** `_normalize` on what was scanned: the content digest of every source is the
      content it covers, and the sources of the items number as many as the
      items that were scanned. */
  method NormalizeObservations(observations: seq<Observation>, seal: Sealer)
    returns (contents: seq<Observation>, items: seq<NormalizedItem>)
    requires Injective(seal)
    ensures contents == observations
    ensures IsNormalized(RecordsOf(observations), seal, items)
    ensures TotalSources(items) == ScannedItems(observations)
  {
    var records: seq<Record> := [];
    for i := 0 to |observations|
      invariant records == RecordsOf(observations[..i])
    {
      assert observations[..i + 1][..i] == observations[..i];
      records := records + FromSource(observations[i].identity, observations[i].items);
    }
    assert observations[..|observations|] == observations;
    contents := observations;
    items := Normalize(records, seal);
    NormalizationConserves(records, seal, items);
    EveryItemIsARecord(observations);
  }
}
