/** The bounded scan of the configured sources. An adapter is any sequence of
    answers, one for each read; an adapter that adapts to what it is asked gives
    some such sequence. */
module SourceScan {
  import opened Prelude

  type Cursor = nat

  datatype SourceItem = SourceItem(itemId: nat, member: nat, content: nat, mechanical: nat)

  /** `identity` by its rank in the order of strings. */
  datatype Source = Source(identity: nat, maxPages: nat, maxItems: nat)
  {
    predicate Valid() {
      1 <= maxPages <= 1000 && 1 <= maxItems <= 100000
    }
  }

  datatype Page = Page(source: Source, requested: Option<Cursor>, next: Option<Cursor>, items: seq<SourceItem>)

  datatype Answer = Raised | Read(page: Page)

  type Adapter = nat -> Answer

  // ------------------------------------------------------- the declared outcome

  /** The cursor that the k-th read of a source asks for. */
  ghost function Asked(adapter: Adapter, start: nat, k: nat): Option<Cursor> {
    if k == 0 || adapter(start + k - 1).Raised? then None else adapter(start + k - 1).page.next
  }

  ghost function Collected(adapter: Adapter, start: nat, n: nat): (items: seq<SourceItem>) {
    if n == 0 then []
    else Collected(adapter, start, n - 1) + if adapter(start + n - 1).Read? then adapter(start + n - 1).page.items
        else []
  }

  /** The k-th answer is a page of this source for the cursor asked. */
  ghost predicate Echoes(source: Source, adapter: Adapter, start: nat, k: nat) {
    && adapter(start + k).Read?
    && adapter(start + k).page.source == source && adapter(start + k).page.requested == Asked(adapter, start, k)
  }

  /** The k-th page continues, with a cursor that no earlier page gave. */
  ghost predicate Continues(adapter: Adapter, start: nat, k: nat) {
    && adapter(start + k).Read? && adapter(start + k).page.next.Some?
    && forall j :: 1 <= j <= k ==> Asked(adapter, start, j) != adapter(start + k).page.next
  }

  ghost predicate Ends(adapter: Adapter, start: nat, k: nat) {
    adapter(start + k).Read? && adapter(start + k).page.next.None?
  }

  function Ids(items: seq<SourceItem>): (r: seq<nat>)
    ensures |r| == |items| && forall i :: 0 <= i < |r| ==> r[i] == items[i].itemId
  {
    seq(|items|, i requires 0 <= i < |items| => items[i].itemId)
  }

  /** `n` reads, all of them good and the last one final, deliver the source. */
  ghost predicate Delivers(source: Source, adapter: Adapter, start: nat, n: nat) {
    && 1 <= n <= source.maxPages
    && (forall k :: 0 <= k < n ==> Echoes(source, adapter, start, k))
    && (forall k :: 0 <= k < n - 1 ==> Continues(adapter, start, k))
    && Ends(adapter, start, n - 1)
    && |Collected(adapter, start, n)| <= source.maxItems
    && Distinct(Ids(Collected(adapter, start, n)))
  }

  lemma {:induction false} CollectedGrows(adapter: Adapter, start: nat, a: nat, b: nat)
    requires a <= b
    ensures |Collected(adapter, start, a)| <= |Collected(adapter, start, b)|
    decreases b
  {
    if a < b {
      CollectedGrows(adapter, start, a, b - 1);
    }
  }

  /** After `k` good continuing reads, read `k` broke a rule: no number of reads delivers. */
  lemma NoDelivery(source: Source, adapter: Adapter, start: nat, k: nat)
    requires forall j :: 0 <= j < k ==> Continues(adapter, start, j)
    requires || !Echoes(source, adapter, start, k)
             || k + 1 > source.maxPages || |Collected(adapter, start, k + 1)| > source.maxItems
             || (adapter(start + k).page.next.Some? && (k + 1 == source.maxPages || !Continues(adapter, start, k)))
    ensures forall n :: !Delivers(source, adapter, start, n)
  {
    forall n: nat ensures !Delivers(source, adapter, start, n) {
      if 1 <= n <= k {
        assert Continues(adapter, start, n - 1);
      } else if n > k {
        CollectedGrows(adapter, start, k + 1, n);
      }
    }
  }

  lemma OneDelivery(source: Source, adapter: Adapter, start: nat, m: nat, n: nat)
    requires Delivers(source, adapter, start, m) && Delivers(source, adapter, start, n)
    ensures m == n
  {
    assert m < n ==> Continues(adapter, start, m - 1);
    assert n < m ==> Continues(adapter, start, n - 1);
  }

  // ------------------------------------------------------------------ the loop

  /** The cursors that the first `k` continuing pages gave. */
  ghost predicate Seen(adapter: Adapter, start: nat, k: nat, seen: set<Cursor>) {
    forall c :: c in seen <==> exists j :: 1 <= j <= k && Asked(adapter, start, j) == Some(c)
  }

  lemma SeenNext(adapter: Adapter, start: nat, k: nat, seen: set<Cursor>)
    requires Seen(adapter, start, k, seen) && adapter(start + k).Read? && adapter(start + k).page.next.Some?
    ensures adapter(start + k).page.next.value in seen <==> !Continues(adapter, start, k)
    ensures Seen(adapter, start, k + 1, seen + {adapter(start + k).page.next.value})
  {
    var next := adapter(start + k).page.next;
    assert Asked(adapter, start, k + 1) == next;
    forall c ensures c in seen + {next.value} <==> exists j :: 1 <= j <= k + 1 && Asked(adapter, start, j) == Some(c) {
      if j :| 1 <= j <= k + 1 && Asked(adapter, start, j) == Some(c) {
        assert j == k + 1 || j <= k;
      }
    }
  }

  /** The first `n` reads ask for `n` different cursors. */
  ghost predicate CursorsDiffer(adapter: Adapter, start: nat, n: nat) {
    forall i, j :: 0 <= i < j < n ==> Asked(adapter, start, i) != Asked(adapter, start, j)
  }

  /** After `pages` good continuing reads of one source. */
  ghost predicate Underway(source: Source, adapter: Adapter, start: nat, pages: nat, cursor: Option<Cursor>,
          seen: set<Cursor>)
  {
    && pages < source.maxPages && cursor == Asked(adapter, start, pages) && Seen(adapter, start, pages, seen)
    && CursorsDiffer(adapter, start, pages + 1)
    && forall k :: 0 <= k < pages ==> Good(source, adapter, start, k)
  }

  ghost predicate Good(source: Source, adapter: Adapter, start: nat, k: nat) {
    Echoes(source, adapter, start, k) && Continues(adapter, start, k)
  }

  /** After `n` good reads, the last of them final, within the bounds. */
  ghost predicate Complete(source: Source, adapter: Adapter, start: nat, n: nat) {
    && 1 <= n <= source.maxPages && CursorsDiffer(adapter, start, n)
    && (forall k :: 0 <= k < n - 1 ==> Good(source, adapter, start, k))
    && Echoes(source, adapter, start, n - 1) && Ends(adapter, start, n - 1)
    && |Collected(adapter, start, n)| <= source.maxItems
  }

  datatype Verdict = Refused | Last | More(next: Cursor)

  /** The loop's body: what becomes of the page that was just read. */
  method TakePage(source: Source, adapter: Adapter, start: nat, pages: nat, cursor: Option<Cursor>, seen: set<Cursor>,
          collected: seq<SourceItem>, answer: Answer)
    returns (verdict: Verdict)
    requires Underway(source, adapter, start, pages, cursor, seen) && answer == adapter(start + pages)
    requires collected == Collected(adapter, start, pages)
    ensures verdict.Refused? ==> forall n :: !Delivers(source, adapter, start, n)
    ensures !verdict.Refused? ==> answer.Read?
    ensures verdict.Last? ==> Complete(source, adapter, start, pages + 1)
    ensures verdict.More? ==>
      Underway(source, adapter, start, pages + 1, Some(verdict.next), seen + {verdict.next})
  {
    forall k | 0 <= k < pages ensures Continues(adapter, start, k) {
      assert Good(source, adapter, start, k);
    }
    if answer.Raised? || answer.page.source != source || answer.page.requested != cursor
       || |collected| + |answer.page.items| > source.maxItems {
      NoDelivery(source, adapter, start, pages);
      return Refused;
    }
    if answer.page.next.None? {
      return Last;
    }
    SeenNext(adapter, start, pages, seen);
    if pages + 1 == source.maxPages || answer.page.next.value in seen {
      NoDelivery(source, adapter, start, pages);
      return Refused;
    }
    FreshCursor(adapter, start, pages);
    assert Good(source, adapter, start, pages);
    verdict := More(answer.page.next.value);
  }

  /** One source: at most `maxPages` reads whatever the adapter answers, no
      cursor followed twice, and the items of the pages in order exactly when
      some number of reads delivers. */
  method ScanSource(source: Source, adapter: Adapter, start: nat)
    returns (items: Option<seq<SourceItem>>, readCount: nat)
    requires source.Valid()
    ensures 1 <= readCount <= source.maxPages
    ensures CursorsDiffer(adapter, start, readCount)
    ensures items.Some? ==> Delivers(source, adapter, start, readCount)
    ensures items.Some? ==> items.value == Collected(adapter, start, readCount)
    ensures items.None? ==> forall n :: !Delivers(source, adapter, start, n)
  {
    var cursor: Option<Cursor>, seen: set<Cursor>, pages, collected := None, {}, 0, [];
    while true
      invariant Underway(source, adapter, start, pages, cursor, seen)
      invariant collected == Collected(adapter, start, pages)
      decreases source.maxPages - pages
    {
      var answer := adapter(start + pages);
      var verdict := TakePage(source, adapter, start, pages, cursor, seen, collected, answer);
      if verdict.Refused? {
        return None, pages + 1;
      }
      pages := pages + 1;
      collected := collected + answer.page.items;
      if verdict.Last? {
        break;
      }
      seen := seen + {verdict.next};
      cursor := Some(verdict.next);
    }
    readCount := pages;
    CompleteDelivers(source, adapter, start, readCount);
    items := if Distinct(Ids(collected)) then Some(collected) else None;
  }

  /** A complete read delivers exactly when no item repeats. */
  lemma CompleteDelivers(source: Source, adapter: Adapter, start: nat, n: nat)
    requires Complete(source, adapter, start, n)
    ensures Distinct(Ids(Collected(adapter, start, n))) ==> Delivers(source, adapter, start, n)
    ensures !Distinct(Ids(Collected(adapter, start, n))) ==> forall m :: !Delivers(source, adapter, start, m)
  {
    forall k | 0 <= k < n - 1 ensures Echoes(source, adapter, start, k) && Continues(adapter, start, k) {
      assert Good(source, adapter, start, k);
    }
    if !Distinct(Ids(Collected(adapter, start, n))) {
      Repeated(source, adapter, start, n);
    }
  }

  lemma Repeated(source: Source, adapter: Adapter, start: nat, m: nat)
    requires m >= 1 && (forall k :: 0 <= k < m - 1 ==> Continues(adapter, start, k)) && Ends(adapter, start, m - 1)
    requires !Distinct(Ids(Collected(adapter, start, m)))
    ensures forall n :: !Delivers(source, adapter, start, n)
  {
    forall n: nat ensures !Delivers(source, adapter, start, n) {
      if 1 <= n < m {
        assert Continues(adapter, start, n - 1);
      } else if n > m {
        assert !Continues(adapter, start, m - 1);
      }
    }
  }

  lemma FreshCursor(adapter: Adapter, start: nat, k: nat)
    requires Continues(adapter, start, k) && CursorsDiffer(adapter, start, k + 1)
    ensures CursorsDiffer(adapter, start, k + 2)
  {
    assert Asked(adapter, start, k + 1) == adapter(start + k).page.next;
    assert Asked(adapter, start, 0) == None;
  }

  // --------------------------------------------------------------- all sources

  datatype Observation = Observation(identity: nat, items: seq<SourceItem>)

  ghost function PagesAllowed(sources: seq<Source>): nat {
    if sources == [] then 0 else PagesAllowed(sources[..|sources| - 1]) + sources[|sources| - 1].maxPages
  }

  /** Source `i` delivers the reads from one cut to the next. */
  ghost predicate DeliversAt(sources: seq<Source>, adapter: Adapter, observations: seq<Observation>, cuts: seq<nat>,
          i: int)
  {
    && 0 <= i < |sources| == |observations| == |cuts| - 1 && cuts[i] <= cuts[i + 1]
    && Delivers(sources[i], adapter, cuts[i], cuts[i + 1] - cuts[i])
    && observations[i] == Observation(sources[i].identity, Collected(adapter, cuts[i], cuts[i + 1] - cuts[i]))
  }

  /** Every source delivers in turn, each from where the one before it stopped. */
  ghost predicate ScanDelivers(sources: seq<Source>, adapter: Adapter, observations: seq<Observation>, cuts: seq<nat>) {
    && |sources| == |observations| == |cuts| - 1 && cuts[0] == 0
    && forall i :: 0 <= i < |sources| ==> DeliversAt(sources, adapter, observations, cuts, i)
  }

  lemma ScanExtends(sources: seq<Source>, adapter: Adapter, i: nat, observations: seq<Observation>, cuts: seq<nat>,
          n: nat)
    requires i < |sources| && ScanDelivers(sources[..i], adapter, observations, cuts)
    requires Delivers(sources[i], adapter, cuts[i], n)
    ensures ScanDelivers(sources[..i + 1], adapter,
        observations + [Observation(sources[i].identity, Collected(adapter, cuts[i], n))], cuts + [cuts[i] + n])
  {
    var o, c := observations + [Observation(sources[i].identity, Collected(adapter, cuts[i], n))], cuts + [cuts[i] + n];
    var grown := sources[..i + 1];
    forall j | 0 <= j < i + 1 ensures DeliversAt(grown, adapter, o, c, j) {
      if j < i {
        assert DeliversAt(sources[..i], adapter, observations, cuts, j);
      }
    }
  }

  /** The outcome of a scan is determined by the adapter's answers. */
  lemma {:induction false} OneScan(sources: seq<Source>, n: nat, adapter: Adapter, o: seq<Observation>, c: seq<nat>,
          o': seq<Observation>, c': seq<nat>, i: nat)
    requires i <= n <= |sources| && ScanDelivers(sources[..n], adapter, o, c) && ScanDelivers(sources, adapter, o', c')
    ensures c[i] == c'[i] && o[..i] == o'[..i]
    decreases i
  {
    if i > 0 {
      OneScan(sources, n, adapter, o, c, o', c', i - 1);
      assert DeliversAt(sources[..n], adapter, o, c, i - 1) && DeliversAt(sources, adapter, o', c', i - 1);
      OneDelivery(sources[i - 1], adapter, c[i - 1], c[i] - c[i - 1], c'[i] - c[i - 1]);
      assert o[..i] == o[..i - 1] + [o[i - 1]] && o'[..i] == o'[..i - 1] + [o'[i - 1]];
    }
  }

  /** Two deliveries of the same scan are the same. */
  lemma ScanIsDetermined(sources: seq<Source>, adapter: Adapter, o: seq<Observation>, c: seq<nat>, o': seq<Observation>,
          c': seq<nat>)
    requires ScanDelivers(sources, adapter, o, c) && ScanDelivers(sources, adapter, o', c')
    ensures o == o'
  {
    assert sources[..|sources|] == sources;
    OneScan(sources, |sources|, adapter, o, c, o', c', |sources|);
  }

  lemma StopsHere(sources: seq<Source>, adapter: Adapter, i: nat, o: seq<Observation>, c: seq<nat>)
    requires i < |sources| && ScanDelivers(sources[..i], adapter, o, c)
    requires forall n :: !Delivers(sources[i], adapter, c[i], n)
    ensures forall o', c' :: !ScanDelivers(sources, adapter, o', c')
  {
    forall o', c' ensures !ScanDelivers(sources, adapter, o', c') {
      assert |c'| == |sources| + 1 && c'[i] == c[i] ==> !DeliversAt(sources, adapter, o', c', i);
      if ScanDelivers(sources, adapter, o', c') {
        OneScan(sources, i, adapter, o, c, o', c', i);
      }
    }
  }

  lemma {:induction false} PagesGrow(sources: seq<Source>, i: nat)
    requires i <= |sources|
    ensures PagesAllowed(sources[..i]) <= PagesAllowed(sources)
    decreases |sources|
  {
    if i == |sources| {
      assert sources[..i] == sources;
    } else {
      var init := sources[..|sources| - 1];
      assert init[..i] == sources[..i];
      PagesGrow(init, i);
    }
  }

  /** `scan_configured_sources` up to normalization, on sources sorted by
      identity: it succeeds exactly when every source delivers in turn. */
  method ScanAll(sources: seq<Source>, adapter: Adapter)
    returns (observations: Option<seq<Observation>>, cuts: seq<nat>, readCount: nat)
    requires forall i :: 0 <= i < |sources| ==> sources[i].Valid()
    ensures readCount <= PagesAllowed(sources)
    ensures observations.Some? ==>
        ScanDelivers(sources, adapter, observations.value, cuts) && readCount == cuts[|sources|]
    ensures observations.None? ==> forall o, c :: !ScanDelivers(sources, adapter, o, c)
  {
    var collected: seq<Observation> := [];
    cuts, readCount := [0], 0;
    for i := 0 to |sources|
      invariant ScanDelivers(sources[..i], adapter, collected, cuts) && readCount == cuts[i]
      invariant readCount <= PagesAllowed(sources[..i])
    {
      assert sources[..i + 1][..i] == sources[..i];
      var items, n := ScanSource(sources[i], adapter, readCount);
      if items.None? {
        PagesGrow(sources, i + 1);
        StopsHere(sources, adapter, i, collected, cuts);
        return None, cuts, readCount + n;
      }
      ScanExtends(sources, adapter, i, collected, cuts, n);
      collected, cuts, readCount := collected + [Observation(sources[i].identity, items.value)],
          cuts + [readCount + n], readCount + n;
    }
    assert sources[..|sources|] == sources;
    observations := Some(collected);
  }
}
