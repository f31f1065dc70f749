// The home page's delivery list: every start or refresh schedules a rebuild behind the previous
// one; a rebuild reads page after page and gives way when a newer one has been scheduled.
module DeliveryListSpec {
  import opened Options

  const MAX_PAGES: nat := 10

  datatype Delivery = Delivery(id: string, title: string)

  datatype Page = Page(items: seq<Delivery>, hasMore: bool, next: Option<string>)

  datatype Status = Loading | Ready | Refreshing | Error

  // The variables of the view model.
  datatype List = List(loaded: seq<Delivery>, status: Status, generation: nat, closed: bool)

  // A rebuild in flight: the pages read so far, what was collected from them, the cursors used.
  datatype Progress =
    | Waiting
    | Running(pages: seq<Page>, collected: seq<Delivery>, cursors: set<string>, cursor: Option<string>)
    | Done(complete: bool, pages: seq<Page>)

  datatype Rebuild = Rebuild(generation: nat, first: bool, progress: Progress)

  datatype System = System(list: List, rebuilds: seq<Rebuild>)

  datatype Event =
    | Start
    | Refresh
    | Proceed(index: nat)
    | Reply(index: nat, page: Page)
    | Fail(index: nat) // a failed query, or the answer to another one
    | Close

  function Ids(items: seq<Delivery>): set<string> {
    set i | i in items :: i.id
  }

  // Each id once, at its first occurrence.
  function Dedup(items: seq<Delivery>): seq<Delivery> {
    if items == [] then []
    else
      var front, last := items[..|items| - 1], items[|items| - 1];
      if last.id in Ids(front) then Dedup(front) else Dedup(front) + [last]
  }

  function Flatten(pages: seq<Page>): seq<Delivery> {
    if pages == [] then [] else Flatten(pages[..|pages| - 1]) + pages[|pages| - 1].items
  }

  predicate Superseded(l: List, own: nat) {
    l.closed || own != l.generation
  }

  function Scheduled(l: List, status: Status): List {
    l.(generation := l.generation + 1, status := status)
  }

  // failLoad, with the partial list shown on a first load.
  function Failed(l: List, first: bool, collected: seq<Delivery>): List {
    l.(status := Error, loaded := if first then collected else l.loaded)
  }

  // The page hands on to another one that has not been read yet.
  predicate Continues(page: Page, cursors: set<string>) {
    page.hasMore && page.next.Some? && page.next.value !in cursors
  }

  function Finished(l: List, collected: seq<Delivery>): List {
    l.(loaded := collected, status := Ready)
  }

  function Shown(l: List, first: bool, collected: seq<Delivery>): List {
    if first then l.(loaded := collected) else l
  }

  function Put(s: System, i: nat, l: List, p: Progress): System
    requires i < |s.rebuilds|
  {
    s.(list := l, rebuilds := s.rebuilds[i := s.rebuilds[i].(progress := p)])
  }

  function Answered(s: System, i: nat, page: Page): System
    requires i < |s.rebuilds| && s.rebuilds[i].progress.Running?
  {
    var p := s.rebuilds[i].progress;
    var (l, q) := PageRead(s.list, s.rebuilds[i], page, Dedup(p.collected + page.items));
    Put(s, i, l, q)
  }

  // What a page does to the list and to its rebuild, when `collected` is everything read with it.
  function PageRead(l: List, r: Rebuild, page: Page, collected: seq<Delivery>): (List, Progress)
    requires r.progress.Running?
  {
    var pages := r.progress.pages + [page];
    if Superseded(l, r.generation) then (l, Done(false, r.progress.pages))
    else if !page.hasMore then (Finished(l, collected), Done(true, pages))
    else if !Continues(page, r.progress.cursors) || |pages| >= MAX_PAGES then (Failed(l, r.first, collected), Done(false, pages))
    else (Shown(l, r.first, collected), Running(pages, collected, r.progress.cursors + {page.next.value}, page.next))
  }

  function Next(s: System, e: Event): System {
    match e
    case Start =>
      if s.list.closed then s
      else System(Scheduled(s.list, Loading), s.rebuilds + [Rebuild(s.list.generation + 1, true, Waiting)])
    case Refresh =>
      if s.list.closed then s
      else System(Scheduled(s.list, Refreshing), s.rebuilds + [Rebuild(s.list.generation + 1, false, Waiting)])
    case Proceed(i) =>
      if i < |s.rebuilds| && s.rebuilds[i].progress.Waiting? && (i == 0 || s.rebuilds[i - 1].progress.Done?) then
        Put(s, i, s.list, if Superseded(s.list, s.rebuilds[i].generation) then Done(false, []) else Running([], [], {}, None))
      else s
    case Reply(i, page) => if i < |s.rebuilds| && s.rebuilds[i].progress.Running? then Answered(s, i, page) else s
    case Fail(i) =>
      if i < |s.rebuilds| && s.rebuilds[i].progress.Running? then
        var r := s.rebuilds[i];
        var l := if Superseded(s.list, r.generation) then s.list else Failed(s.list, r.first, r.progress.collected);
        Put(s, i, l, Done(false, r.progress.pages))
      else s
    case Close => if s.list.closed then s else s.(list := s.list.(closed := true, generation := s.list.generation + 1))
  }

  function Run(es: seq<Event>): System {
    if es == [] then System(List([], Loading, 0, false), []) else Next(Run(es[..|es| - 1]), es[|es| - 1])
  }

  // ----- De-duplication -----

  predicate DistinctIds(items: seq<Delivery>) {
    forall i, j | 0 <= i < j < |items| :: items[i].id != items[j].id
  }

  // Position i is the first with its id.
  predicate First(items: seq<Delivery>, i: nat)
    requires i < |items|
  {
    forall j | 0 <= j < i :: items[j].id != items[i].id
  }

  lemma DedupSnoc(items: seq<Delivery>, d: Delivery)
    ensures Dedup(items + [d]) == if d.id in Ids(items) then Dedup(items) else Dedup(items) + [d]
    ensures Ids(items + [d]) == Ids(items) + {d.id}
  {
    assert (items + [d])[..|items|] == items;
  }

  lemma FirstSnoc(items: seq<Delivery>, d: Delivery, i: nat)
    requires i <= |items|
    ensures First(items + [d], i) <==> if i < |items| then First(items, i) else d.id !in Ids(items)
  {
    var more := items + [d];
    if i < |items| {
      assert forall j | 0 <= j <= i :: more[j] == items[j];
    } else {
      assert forall j | 0 <= j < i :: more[j] == items[j] && items[j].id in Ids(items);
      if d.id in Ids(items) {
        var x :| x in items && x.id == d.id;
        var j :| 0 <= j < |items| && items[j] == x;
        assert more[j].id == d.id;
      }
    }
  }

  predicate Collected(items: seq<Delivery>, collected: seq<Delivery>, seen: set<string>) {
    collected == Dedup(items) && seen == Ids(items)
  }

  lemma CollectedNext(items: seq<Delivery>, d: Delivery, more: seq<Delivery>, collected: seq<Delivery>, seen: set<string>)
    requires Collected(items, collected, seen) && more == items + [d]
    ensures if d.id in seen then Collected(more, collected, seen) else Collected(more, collected + [d], seen + {d.id})
  {
    DedupSnoc(items, d);
  }

  lemma {:induction false} DedupIds(items: seq<Delivery>)
    ensures DistinctIds(Dedup(items)) && Ids(Dedup(items)) == Ids(items)
  {
    if items != [] {
      var front, last := items[..|items| - 1], items[|items| - 1];
      assert items == front + [last];
      DedupIds(front);
      DedupSnoc(front, last);
      var kept := Dedup(front);
      assert Ids(kept + [last]) == Ids(kept) + {last.id};
      forall i | 0 <= i < |kept| ensures kept[i].id in Ids(front) { assert kept[i] in kept; }
    }
  }

  lemma {:induction false} DedupHoldsFirst(items: seq<Delivery>, i: nat)
    requires i < |items| && First(items, i)
    ensures items[i] in Dedup(items)
  {
    var front, last := items[..|items| - 1], items[|items| - 1];
    assert items == front + [last];
    DedupSnoc(front, last);
    FirstSnoc(front, last, i);
    if i < |front| { DedupHoldsFirst(front, i); }
  }

  lemma {:induction false} DedupIsFirst(items: seq<Delivery>, d: Delivery) returns (i: nat)
    requires d in Dedup(items)
    ensures i < |items| && items[i] == d && First(items, i)
  {
    var front, last := items[..|items| - 1], items[|items| - 1];
    assert items == front + [last];
    DedupSnoc(front, last);
    if d in Dedup(front) { i := DedupIsFirst(front, d); } else { i := |front|; }
    FirstSnoc(front, last, i);
  }

  // The result holds exactly the first occurrences, each id once.
  lemma DedupFirsts(items: seq<Delivery>, d: Delivery)
    ensures DistinctIds(Dedup(items)) && Ids(Dedup(items)) == Ids(items)
    ensures d in Dedup(items) <==> exists i | 0 <= i < |items| :: items[i] == d && First(items, i)
  {
    DedupIds(items);
    if d in Dedup(items) { var i := DedupIsFirst(items, d); }
    if i :| 0 <= i < |items| && items[i] == d && First(items, i) { DedupHoldsFirst(items, i); }
  }

  // ... in the order of those first occurrences.
  lemma {:induction false} DedupKeepsOrder(items: seq<Delivery>, a: nat, b: nat) returns (i: nat, j: nat)
    requires a < b < |Dedup(items)|
    ensures i < j < |items| && items[i] == Dedup(items)[a] && items[j] == Dedup(items)[b] && First(items, i) && First(items, j)
  {
    var front, last := items[..|items| - 1], items[|items| - 1];
    assert items == front + [last];
    if b < |Dedup(front)| {
      i, j := DedupKeepsOrder(front, a, b);
    } else {
      assert Dedup(front)[a] in Dedup(front);
      i := DedupIsFirst(front, Dedup(front)[a]);
      j := |front|;
      forall k | 0 <= k < |front| ensures items[k].id != last.id { assert front[k] in front; }
    }
  }

  // Collecting page by page is de-duplicating everything read.
  lemma {:induction false} DedupIncremental(xs: seq<Delivery>, ys: seq<Delivery>)
    ensures SameDedup(Dedup(xs) + ys, xs + ys)
  {
    DedupIds(xs);
    if ys == [] {
      assert Dedup(xs) + ys == Dedup(xs) && xs + ys == xs;
      DedupIdle(Dedup(xs));
    } else {
      var front, last := ys[..|ys| - 1], ys[|ys| - 1];
      DedupIncremental(xs, front);
      DedupSame(Dedup(xs) + front, xs + front, last);
      assert Dedup(xs) + ys == Dedup(xs) + front + [last] && xs + ys == xs + front + [last];
    }
  }

  predicate SameDedup(xs: seq<Delivery>, ys: seq<Delivery>) {
    Dedup(xs) == Dedup(ys) && Ids(xs) == Ids(ys)
  }

  lemma DedupSame(xs: seq<Delivery>, ys: seq<Delivery>, d: Delivery)
    requires SameDedup(xs, ys)
    ensures SameDedup(xs + [d], ys + [d])
  {
    DedupSnoc(xs, d);
    DedupSnoc(ys, d);
  }

  lemma {:induction false} DedupIdle(xs: seq<Delivery>)
    requires DistinctIds(xs)
    ensures Dedup(xs) == xs
  {
    if xs != [] {
      DedupIdle(xs[..|xs| - 1]);
      assert xs == xs[..|xs| - 1] + [xs[|xs| - 1]];
    }
  }

  // ----- Invariant -----

  // The pages were read along their own cursors, none of them twice.
  predicate Chained(pages: seq<Page>) {
    && (forall k | 0 <= k < |pages| - 1 :: pages[k].hasMore && pages[k].next.Some?)
    && (forall j, k | 0 <= j < k < |pages| - 1 :: pages[j].next != pages[k].next)
  }

  predicate Complete(pages: seq<Page>) {
    0 < |pages| <= MAX_PAGES && Chained(pages) && !pages[|pages| - 1].hasMore
  }

  predicate HandedOut(pages: seq<Page>, cursor: string) {
    exists k | 0 <= k < |pages| :: pages[k].next == Some(cursor)
  }

  predicate RunningHolds(p: Progress)
    requires p.Running?
  {
    && |p.pages| < MAX_PAGES
    && p.collected == Dedup(Flatten(p.pages))
    && (forall k | 0 <= k < |p.pages| :: p.pages[k].hasMore && p.pages[k].next.Some? && p.pages[k].next.value in p.cursors)
    && (forall j, k | 0 <= j < k < |p.pages| :: p.pages[j].next != p.pages[k].next)
    && (forall c | c in p.cursors :: HandedOut(p.pages, c))
    && p.cursor == if p.pages == [] then None else p.pages[|p.pages| - 1].next
  }

  predicate RebuildHolds(r: Rebuild, n: nat) {
    && r.generation == n + 1
    && (r.progress.Running? ==> RunningHolds(r.progress))
    && (r.progress.Done? && r.progress.complete ==> Complete(r.progress.pages))
  }

  // Rebuilds run one after the other, in the order they were scheduled.
  predicate Serial(rs: seq<Rebuild>) {
    forall i, j | 0 <= i < j < |rs| && !rs[j].progress.Waiting? :: rs[i].progress.Done?
  }

  predicate ListHolds(s: System) {
    && s.list.generation == |s.rebuilds| + (if s.list.closed then 1 else 0)
    && DistinctIds(s.list.loaded)
    && (s.list.status == Ready ==>
          && s.rebuilds != []
          && var r := s.rebuilds[|s.rebuilds| - 1];
             r.progress.Done? && r.progress.complete && s.list.loaded == Dedup(Flatten(r.progress.pages)))
  }

  predicate Inv(s: System) {
    && (forall n | 0 <= n < |s.rebuilds| :: RebuildHolds(s.rebuilds[n], n))
    && Serial(s.rebuilds)
    && ListHolds(s)
  }

  lemma FlattenSnoc(pages: seq<Page>, page: Page)
    ensures Flatten(pages + [page]) == Flatten(pages) + page.items
  {
    assert (pages + [page])[..|pages + [page]| - 1] == pages;
  }

  lemma PageCollected(pages: seq<Page>, page: Page)
    ensures Dedup(Dedup(Flatten(pages)) + page.items) == Dedup(Flatten(pages + [page]))
    ensures DistinctIds(Dedup(Flatten(pages + [page])))
  {
    FlattenSnoc(pages, page);
    DedupIncremental(Flatten(pages), page.items);
    DedupIds(Flatten(pages + [page]));
  }

  lemma RunningExtends(p: Progress, page: Page)
    requires p.Running? && RunningHolds(p)
    ensures Continues(page, p.cursors) && |p.pages| + 1 < MAX_PAGES ==>
              RunningHolds(Running(p.pages + [page], Dedup(p.collected + page.items), p.cursors + {page.next.value}, page.next))
    ensures !page.hasMore ==> Complete(p.pages + [page])
    ensures Dedup(p.collected + page.items) == Dedup(Flatten(p.pages + [page]))
    ensures DistinctIds(Dedup(p.collected + page.items))
  {
    PageCollected(p.pages, page);
    if Continues(page, p.cursors) { HandsOut(p, page); }
  }

  lemma HandsOut(p: Progress, page: Page)
    requires p.Running? && RunningHolds(p) && Continues(page, p.cursors)
    ensures forall c | c in p.cursors + {page.next.value} :: HandedOut(p.pages + [page], c)
  {
    var pages := p.pages + [page];
    forall c | c in p.cursors + {page.next.value} ensures HandedOut(pages, c) {
      if c == page.next.value {
        assert pages[|p.pages|] == page;
      } else {
        var k :| 0 <= k < |p.pages| && p.pages[k].next == Some(c);
        assert pages[k] == p.pages[k];
      }
    }
  }

  // A reply to a running rebuild.
  lemma AnsweredProgress(s: System, i: nat, page: Page)
    requires Inv(s) && i < |s.rebuilds| && s.rebuilds[i].progress.Running?
    ensures RebuildHolds(Answered(s, i, page).rebuilds[i], i)
  {
    assert RebuildHolds(s.rebuilds[i], i);
    RunningExtends(s.rebuilds[i].progress, page);
  }

  lemma InvPut(s: System, i: nat, l: List, p: Progress)
    requires Inv(s) && i < |s.rebuilds|
    requires !p.Waiting? && (s.rebuilds[i].progress.Running? || (s.rebuilds[i].progress.Waiting? && (i == 0 || s.rebuilds[i - 1].progress.Done?)))
    requires RebuildHolds(s.rebuilds[i].(progress := p), i)
    requires ListHolds(Put(s, i, l, p))
    ensures Inv(Put(s, i, l, p))
  {
    var t := Put(s, i, l, p);
    forall n | 0 <= n < |t.rebuilds| ensures RebuildHolds(t.rebuilds[n], n) {
      assert RebuildHolds(s.rebuilds[n], n);
    }
    forall a, b | 0 <= a < b < |t.rebuilds| && !t.rebuilds[b].progress.Waiting? ensures t.rebuilds[a].progress.Done? {
      if b == i && a < i - 1 {
        assert !s.rebuilds[i - 1].progress.Waiting? || s.rebuilds[i].progress.Running?;
      }
    }
  }

  lemma ListPut(s: System, i: nat, l: List, p: Progress)
    requires ListHolds(s) && i < |s.rebuilds| && !s.rebuilds[i].progress.Done?
    requires l.generation == s.list.generation && l.closed == s.list.closed && DistinctIds(l.loaded)
    requires l.status == Ready ==>
               (l == s.list && i != |s.rebuilds| - 1)
               || (i == |s.rebuilds| - 1 && p.Done? && p.complete && l.loaded == Dedup(Flatten(p.pages)))
    ensures ListHolds(Put(s, i, l, p))
  {
  }

  lemma ListRead(l: List, r: Rebuild, page: Page, collected: seq<Delivery>)
    requires r.progress.Running?
    ensures var (m, q) := PageRead(l, r, page, collected);
            && m.generation == l.generation && m.closed == l.closed && (m.loaded == l.loaded || m.loaded == collected)
            && (Superseded(l, r.generation) ==> m == l)
            && (m.status == Ready ==> m == l || m.status == l.status || (q == Done(true, r.progress.pages + [page]) && m.loaded == collected))
  {
  }

  lemma AnsweredList(s: System, i: nat, page: Page)
    requires ListHolds(s) && i < |s.rebuilds| && s.rebuilds[i].progress.Running? && s.rebuilds[i].generation == i + 1
    requires s.rebuilds[i].progress.collected == Dedup(Flatten(s.rebuilds[i].progress.pages))
    ensures ListHolds(Answered(s, i, page))
  {
    var p := s.rebuilds[i].progress;
    var collected := Dedup(p.collected + page.items);
    PageCollected(p.pages, page);
    var (l, q) := PageRead(s.list, s.rebuilds[i], page, collected);
    ListRead(s.list, s.rebuilds[i], page, collected);
    ListPut(s, i, l, q);
  }

  lemma AnsweredIsPut(s: System, i: nat, page: Page)
    requires i < |s.rebuilds| && s.rebuilds[i].progress.Running?
    ensures var t := Answered(s, i, page);
            && |t.rebuilds| == |s.rebuilds| && !t.rebuilds[i].progress.Waiting?
            && t.rebuilds[i] == s.rebuilds[i].(progress := t.rebuilds[i].progress)
            && t == Put(s, i, t.list, t.rebuilds[i].progress)
  {
  }

  lemma InvAnswered(s: System, i: nat, page: Page)
    requires Inv(s) && i < |s.rebuilds| && s.rebuilds[i].progress.Running?
    ensures Inv(Answered(s, i, page))
  {
    AnsweredIsPut(s, i, page);
    AnsweredProgress(s, i, page);
    assert RebuildHolds(s.rebuilds[i], i);
    AnsweredList(s, i, page);
    var t := Answered(s, i, page);
    InvPut(s, i, t.list, t.rebuilds[i].progress);
  }

  lemma InvFailed(s: System, i: nat)
    requires Inv(s) && i < |s.rebuilds| && s.rebuilds[i].progress.Running?
    ensures Inv(Next(s, Fail(i)))
  {
    var t := Next(s, Fail(i));
    assert RebuildHolds(s.rebuilds[i], i);
    DedupIds(Flatten(s.rebuilds[i].progress.pages));
    InvPut(s, i, t.list, t.rebuilds[i].progress);
  }

  lemma InvNext(s: System, e: Event)
    requires Inv(s)
    ensures Inv(Next(s, e))
  {
    match e
    case Reply(i, page) => if i < |s.rebuilds| && s.rebuilds[i].progress.Running? { InvAnswered(s, i, page); }
    case Fail(i) => if i < |s.rebuilds| && s.rebuilds[i].progress.Running? { InvFailed(s, i); }
    case Proceed(i) =>
      var t := Next(s, e);
      if t != s {
        assert RebuildHolds(s.rebuilds[i], i);
        InvPut(s, i, t.list, t.rebuilds[i].progress);
      }
    case _ =>
      forall n | 0 <= n < |s.rebuilds| ensures RebuildHolds(s.rebuilds[n], n) {}
  }

  lemma {:induction false} InvRun(es: seq<Event>)
    ensures Inv(Run(es))
  {
    if es != [] {
      InvRun(es[..|es| - 1]);
      InvNext(Run(es[..|es| - 1]), es[|es| - 1]);
    }
  }

  // ----- Results -----

  // At most one rebuild runs at a time.
  lemma OneRebuildRuns(es: seq<Event>, i: nat, j: nat)
    requires i < |Run(es).rebuilds| && j < |Run(es).rebuilds|
    requires Run(es).rebuilds[i].progress.Running? && Run(es).rebuilds[j].progress.Running?
    ensures i == j
  {
    InvRun(es);
  }

  // `ready` shows every page of one complete rebuild, the one last scheduled, without repetition;
  // and whatever is shown has no id twice.
  lemma ReadyIsComplete(es: seq<Event>)
    ensures DistinctIds(Run(es).list.loaded)
    ensures Run(es).list.status == Ready ==> ShowsLastRebuild(Run(es))
  {
    InvRun(es);
    if Run(es).list.status == Ready { ReadyShowsLast(Run(es)); }
  }

  predicate ShowsLastRebuild(s: System) {
    && s.rebuilds != []
    && var r := s.rebuilds[|s.rebuilds| - 1];
       && r.generation == |s.rebuilds| && (!s.list.closed ==> s.list.generation == r.generation)
       && r.progress.Done? && Complete(r.progress.pages)
       && s.list.loaded == Dedup(Flatten(r.progress.pages))
  }

  lemma ReadyShowsLast(s: System)
    requires Inv(s) && s.list.status == Ready
    ensures ShowsLastRebuild(s)
  {
    assert RebuildHolds(s.rebuilds[|s.rebuilds| - 1], |s.rebuilds| - 1);
  }

  // What was shown when the last rebuild was scheduled.
  function ShownBefore(es: seq<Event>): seq<Delivery> {
    if es == [] then []
    else
      var front, e := es[..|es| - 1], es[|es| - 1];
      if (e.Start? || e.Refresh?) && !Run(front).list.closed then Run(front).list.loaded else ShownBefore(front)
  }

  function StatusOf(r: Rebuild): Status {
    if r.progress.Done? then if r.progress.complete then Ready else Error else if r.first then Loading else Refreshing
  }

  // A complete rebuild shows its pages; a first one also shows them as they come, and when it fails;
  // any other leaves what was shown before.
  function ShownBy(r: Rebuild, before: seq<Delivery>): seq<Delivery> {
    match r.progress
    case Waiting => before
    case Running(pages, _, _, _) => if r.first && pages != [] then Dedup(Flatten(pages)) else before
    case Done(complete, pages) => if complete || r.first then Dedup(Flatten(pages)) else before
  }

  predicate Exact(s: System, before: seq<Delivery>) {
    !s.list.closed ==>
      if s.rebuilds == [] then s.list.loaded == [] && s.list.status == Loading
      else
        var r := s.rebuilds[|s.rebuilds| - 1];
        s.list.status == StatusOf(r) && s.list.loaded == ShownBy(r, before)
  }

  lemma ExactPut(s: System, i: nat, l: List, p: Progress, before: seq<Delivery>)
    requires Exact(s, before) && i < |s.rebuilds| && l.closed == s.list.closed
    requires i < |s.rebuilds| - 1 ==> l == s.list
    requires i == |s.rebuilds| - 1 && !l.closed ==>
               var r := s.rebuilds[i].(progress := p); l.status == StatusOf(r) && l.loaded == ShownBy(r, before)
    ensures Exact(Put(s, i, l, p), before)
  {
  }

  lemma ExactReply(s: System, i: nat, page: Page, before: seq<Delivery>)
    requires Inv(s) && Exact(s, before) && i < |s.rebuilds| && s.rebuilds[i].progress.Running?
    ensures Exact(Answered(s, i, page), before)
  {
    assert RebuildHolds(s.rebuilds[i], i);
    AnsweredIsPut(s, i, page);
    AnsweredShows(s, i, page, before);
    var t := Answered(s, i, page);
    ExactPut(s, i, t.list, t.rebuilds[i].progress, before);
  }

  lemma AnsweredShows(s: System, i: nat, page: Page, before: seq<Delivery>)
    requires i < |s.rebuilds| && s.rebuilds[i].progress.Running? && s.rebuilds[i].generation == i + 1
    requires s.rebuilds[i].progress.collected == Dedup(Flatten(s.rebuilds[i].progress.pages)) && ListHolds(s) && Exact(s, before)
    ensures var t := Answered(s, i, page);
            && t.list.closed == s.list.closed && (i < |s.rebuilds| - 1 ==> t.list == s.list)
            && (i == |s.rebuilds| - 1 && !s.list.closed ==>
                  t.list.status == StatusOf(t.rebuilds[i]) && t.list.loaded == ShownBy(t.rebuilds[i], before))
  {
    PageCollected(s.rebuilds[i].progress.pages, page);
  }

  lemma ExactStep(s: System, e: Event, before: seq<Delivery>)
    requires Inv(s) && Exact(s, before)
    ensures Exact(Next(s, e), if (e.Start? || e.Refresh?) && !s.list.closed then s.list.loaded else before)
  {
    match e
    case Reply(i, page) => if i < |s.rebuilds| && s.rebuilds[i].progress.Running? { ExactReply(s, i, page, before); }
    case Fail(i) => if i < |s.rebuilds| { assert RebuildHolds(s.rebuilds[i], i); }
    case Proceed(i) => if i < |s.rebuilds| { assert RebuildHolds(s.rebuilds[i], i); }
    case _ =>
  }

  // In every run, what an open list shows is decided by the rebuild scheduled last and by what was shown
  // when it was scheduled: it is ready exactly if that rebuild is complete, and a refresh that fails
  // leaves the list as it was.
  lemma {:induction false} ListIsExact(es: seq<Event>)
    ensures Exact(Run(es), ShownBefore(es))
  {
    if es != [] {
      ListIsExact(es[..|es| - 1]);
      InvRun(es[..|es| - 1]);
      ExactStep(Run(es[..|es| - 1]), es[|es| - 1], ShownBefore(es[..|es| - 1]));
    }
  }

  // Rebuild n was scheduled by a start if it is a first load, and by a refresh otherwise.
  lemma {:induction false} ScheduledBy(es: seq<Event>, n: nat) returns (k: nat)
    requires n < |Run(es).rebuilds|
    ensures k < |es| && |Run(es[..k]).rebuilds| == n
    ensures es[k] == if Run(es).rebuilds[n].first then Start else Refresh
  {
    var front := es[..|es| - 1];
    RebuildsGrow(Run(front), es[|es| - 1]);
    if n < |Run(front).rebuilds| {
      k := ScheduledBy(front, n);
      assert front[..k] == es[..k] && front[k] == es[k];
    } else {
      k := |front|;
    }
  }

  lemma RebuildsGrow(s: System, e: Event)
    ensures var t := Next(s, e);
            && |s.rebuilds| <= |t.rebuilds| <= |s.rebuilds| + 1
            && (forall n | 0 <= n < |s.rebuilds| :: t.rebuilds[n].first == s.rebuilds[n].first)
            && (|s.rebuilds| < |t.rebuilds| ==> e == if t.rebuilds[|s.rebuilds|].first then Start else Refresh)
  {
  }

  // A page ends its rebuild exactly if it is the last; it fails it exactly if it hands out no cursor, one
  // that a page before it handed out, or is the tenth; otherwise the rebuild reads on from its cursor.
  lemma PageDecidesExactly(es: seq<Event>, i: nat, page: Page)
    requires i < |Run(es).rebuilds| && Run(es).rebuilds[i].progress.Running?
    requires i == |Run(es).rebuilds| - 1 && !Run(es).list.closed
    ensures var p, q := Run(es).rebuilds[i].progress, Next(Run(es), Reply(i, page)).rebuilds[i].progress;
            if !page.hasMore then q == Done(true, p.pages + [page])
            else if page.next.None? || HandedOut(p.pages, page.next.value) || |p.pages| + 1 == MAX_PAGES
            then q == Done(false, p.pages + [page])
            else q.Running? && q.pages == p.pages + [page] && q.cursor == page.next
  {
    InvRun(es);
    assert RebuildHolds(Run(es).rebuilds[i], i);
    DecidesAt(Run(es), i, page);
  }

  lemma DecidesAt(s: System, i: nat, page: Page)
    requires i < |s.rebuilds| && s.rebuilds[i].progress.Running? && RunningHolds(s.rebuilds[i].progress)
    requires !Superseded(s.list, s.rebuilds[i].generation)
    ensures var p, q := s.rebuilds[i].progress, Next(s, Reply(i, page)).rebuilds[i].progress;
            if !page.hasMore then q == Done(true, p.pages + [page])
            else if page.next.None? || HandedOut(p.pages, page.next.value) || |p.pages| + 1 == MAX_PAGES
            then q == Done(false, p.pages + [page])
            else q.Running? && q.pages == p.pages + [page] && q.cursor == page.next
  {
    var p := s.rebuilds[i].progress;
    assert page.next.Some? ==> (HandedOut(p.pages, page.next.value) <==> page.next.value in p.cursors);
  }

  // After the close the list does not change any more.
  lemma {:induction false} ClosedIsFinal(es: seq<Event>, fs: seq<Event>)
    requires Run(es).list.closed
    ensures Run(es + fs).list == Run(es).list
  {
    if fs == [] {
      assert es + fs == es;
    } else {
      assert (es + fs)[..|es + fs| - 1] == es + fs[..|fs| - 1];
      ClosedIsFinal(es, fs[..|fs| - 1]);
    }
  }

  // A superseded rebuild shows nothing any more.
  lemma SupersededIsSilent(s: System, e: Event)
    requires (e.Reply? || e.Fail? || e.Proceed?) && e.index < |s.rebuilds| && Superseded(s.list, s.rebuilds[e.index].generation)
    ensures Next(s, e).list == s.list
  {
  }
}

module DeliveryListObject {
  import opened Options
  import opened DeliveryListSpec

  class HomeDeliveryList {
    var loaded: seq<Delivery>
    var status: Status
    var generation: nat
    var closed: bool

    function View(): List
      reads this
    {
      List(loaded, status, generation, closed)
    }

    constructor ()
      ensures View() == List([], Loading, 0, false)
    {
      loaded, status, generation, closed := [], Loading, 0, false;
    }

    method ScheduleRebuild(next: Status) returns (own: nat)
      modifies this
      ensures View() == Scheduled(old(View()), next) && own == generation
    {
      generation := generation + 1;
      status := next;
      own := generation;
    }

    method FailLoad(first: bool, collected: seq<Delivery>)
      modifies this
      ensures View() == Failed(old(View()), first, collected)
    {
      if first {
        loaded := collected;
      }
      status := Error;
    }

    // The loop over one page's items, with the set of ids seen.
    method Collect(before: seq<Delivery>, items: seq<Delivery>) returns (collected: seq<Delivery>)
      requires DistinctIds(before)
      ensures collected == Dedup(before + items)
    {
      collected := before;
      var seen := Ids(before);
      DedupIdle(before);
      ghost var all := before;
      for i := 0 to |items|
        invariant all == before + items[..i] && Collected(all, collected, seen)
      {
        CollectedNext(all, items[i], all + [items[i]], collected, seen);
        all := all + [items[i]];
        if items[i].id !in seen {
          seen := seen + {items[i].id};
          collected := collected + [items[i]];
        }
      }
      assert items[..|items|] == items;
    }

    // rebuild, from one page's reply to the next await; `more` says whether it goes on.
    method ApplyPage(own: nat, first: bool, before: seq<Delivery>, seenCursors: set<string>, pageIndex: nat, page: Page)
      returns (more: bool, collected: seq<Delivery>)
      requires DistinctIds(before)
      modifies this
      ensures Superseded(old(View()), own) ==> View() == old(View()) && !more
      ensures !Superseded(old(View()), own) ==>
                && collected == Dedup(before + page.items)
                && more == (page.hasMore && Continues(page, seenCursors) && pageIndex + 1 < MAX_PAGES)
                && View() == if !page.hasMore then Finished(old(View()), collected)
                             else if more then Shown(old(View()), first, collected)
                             else Failed(old(View()), first, collected)
    {
      collected := before;
      if closed || own != generation {
        return false, before;
      }
      collected := Collect(before, page.items);
      if page.hasMore && (page.next.None? || page.next.value in seenCursors) {
        FailLoad(first, collected);
        return false, collected;
      }
      if first {
        loaded := collected;
      }
      if page.hasMore {
        if pageIndex + 1 >= MAX_PAGES {
          FailLoad(first, collected);
          return false, collected;
        }
        return true, collected;
      }
      loaded, status := collected, Ready;
      return false, collected;
    }

    method Close()
      modifies this
      ensures View() == if old(closed) then old(View()) else old(View()).(closed := true, generation := old(generation) + 1)
    {
      if closed {
        return;
      }
      closed, generation := true, generation + 1;
    }
  }
}
