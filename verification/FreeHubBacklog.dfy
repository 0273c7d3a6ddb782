/**
 What a poll hands out when it goes on from an earlier one, and what capped polls
 in a row come to: a backlog of any length is delivered, each project once.
 */
module FreeHubBacklog {
  import opened Options
  import opened FreeHub

  // ---- what any poll delivers, from any page ----

  /** The project is on one of these pages. */
  ghost predicate OnPages(feed: Feed, pages: seq<nat>, p: Project) {
    exists k <- pages :: feed(k).Some? && p in feed(k).value
  }

  ghost predicate Wanted(q: Queue, p: Project) { p.uid != "" && Open(q, p) }

  lemma {:induction false} FreshUids(seen: seq<string>, known: set<string>, items: seq<Project>)
    ensures forall p <- Fresh(seen, known, items) :: p in items && p.uid != "" && p.uid !in seen && p.uid !in known
    ensures forall p <- items | p.uid != "" && p.uid !in seen && p.uid !in known ::
              p.uid in UidSet(Fresh(seen, known, items))
    decreases |items|
  {
    if items != [] {
      var n := |items| - 1;
      var before, p := items[..n], items[n];
      assert items == before + [p];
      if p.uid == "" || p.uid in seen || p.uid in known {
        FreshUids(seen, known, before);
      } else {
        FreshUids(seen, known + {p.uid}, before);
        var rest := Fresh(seen, known + {p.uid}, before);
        assert Fresh(seen, known, items) == [p] + rest;
        assert UidSet([p] + rest) == {p.uid} + UidSet(rest);
      }
    }
  }

  lemma FoundUids(q: Queue, items: seq<Project>)
    ensures var pending := q.pending + Found(q, items);
            && (forall p <- pending :: p in q.pending || (p in items && Wanted(q, p)))
            && (forall p <- items | Wanted(q, p) :: p.uid in UidSet(pending))
            && UidSet(q.pending) <= UidSet(pending)
  {
    FreshUids(q.seen, UidSet(q.pending), items);
    var found := Found(q, items);
    assert UidSet(q.pending + found) == UidSet(q.pending) + UidSet(found);
  }

  lemma {:induction false} WalkItems(feed: Feed, seen: seq<string>, page: nat, fetched: nat, maxPages: nat)
    ensures var w := WalkFrom(feed, seen, page, fetched, maxPages);
            w.Walk? ==> forall p :: p in w.items <==> OnPages(feed, w.pages, p)
    decreases maxPages - fetched
  {
    var w := WalkFrom(feed, seen, page, fetched, maxPages);
    if fetched < maxPages && w.Walk? && feed(page).value != [] {
      var items := feed(page).value;
      if !FullySeen(items, seen) {
        WalkItems(feed, seen, page + 1, fetched + 1, maxPages);
        var rest := WalkFrom(feed, seen, page + 1, fetched + 1, maxPages);
        OnMorePages(feed, page, rest.pages);
      } else {
        OnMorePages(feed, page, []);
        assert [page] + [] == [page];
      }
    }
  }

  lemma OnMorePages(feed: Feed, page: nat, pages: seq<nat>)
    ensures forall p :: OnPages(feed, [page] + pages, p) <==>
                        (feed(page).Some? && p in feed(page).value) || OnPages(feed, pages, p)
  {
    forall p ensures OnPages(feed, [page] + pages, p) <==>
                     (feed(page).Some? && p in feed(page).value) || OnPages(feed, pages, p)
    {
      if OnPages(feed, pages, p) {
        var k :| k in pages && feed(k).Some? && p in feed(k).value;
        assert k in [page] + pages;
      }
      assert page in [page] + pages;
    }
  }

  /**
   Main result: whatever page a poll starts from and whether or not it meets the cap,
   if it succeeds it hands out every new project of page 1 and of every page it kept,
   and nothing but those and what was pending.
   */
  lemma PollDelivers(q: Queue, feed: Feed, limits: Limits)
    requires limits.maxSeen > 0 && q.seen != [] && Polled(q, feed, limits).result.Some?
    ensures var poll := Polled(q, feed, limits);
            var pages := [1] + poll.pages;
            && (forall p | OnPages(feed, pages, p) && Wanted(q, p) :: p.uid in UidSet(poll.result.value))
            && (forall p <- poll.result.value :: p in q.pending || (OnPages(feed, pages, p) && Wanted(q, p)))
  {
    var first, poll := feed(1).value, Polled(q, feed, limits);
    OnMorePages(feed, 1, poll.pages);
    FoundUids(q, first);
    if first != [] && !FullySeen(first, q.seen) {
      var page := if q.page < 2 then 2 else q.page;
      var w := WalkFrom(feed, q.seen, page, 1, limits.maxPages);
      WalkItems(feed, q.seen, page, 1, limits.maxPages);
      FoundUids(q, first + w.items);
    }
  }

  // ---- a backlog longer than one poll ----

  /** What is wanted of this stretch of the list is pending. */
  ghost predicate Delivers(q: Queue, all: seq<Project>, from: nat, to: nat, pending: seq<Project>)
    requires to <= |all|
  {
    forall i | from <= i < to && Wanted(q, all[i]) :: all[i].uid in UidSet(pending)
  }

  lemma {:induction false} CappedTakes(all: seq<Project>, n: nat, seen: seq<string>, k: nat, fetched: nat,
      maxPages: nat)
    requires fetched <= maxPages
    requires var w := WalkFrom(Still(all, n), seen, k, fetched, maxPages); w.Walk? && w.capped
    ensures var w := WalkFrom(Still(all, n), seen, k, fetched, maxPages);
            && k <= w.next && At(all, n, k) <= At(all, n, w.next)
            && w.items == all[At(all, n, k)..At(all, n, w.next)]
            && NewPages(Still(all, n), seen, k, w.next - k)
    decreases maxPages - fetched
  {
    if fetched < maxPages {
      CappedStep(all, n, seen, k, fetched, maxPages);
      CappedTakes(all, n, seen, k + 1, fetched + 1, maxPages);
      var rest := WalkFrom(Still(all, n), seen, k + 1, fetched + 1, maxPages);
      PagesFollow(all, n, k);
      SlicesJoin(all, At(all, n, k), At(all, n, k + 1), At(all, n, rest.next));
      NewPagesFrom(Still(all, n), seen, k, rest.next - k);
    }
  }

  lemma CappedStep(all: seq<Project>, n: nat, seen: seq<string>, k: nat, fetched: nat, maxPages: nat)
    requires fetched < maxPages
    requires var w := WalkFrom(Still(all, n), seen, k, fetched, maxPages); w.Walk? && w.capped
    ensures PageOf(all, n, k) != [] && !FullySeen(PageOf(all, n, k), seen)
    ensures var w := WalkFrom(Still(all, n), seen, k, fetched, maxPages);
            var rest := WalkFrom(Still(all, n), seen, k + 1, fetched + 1, maxPages);
            rest.Walk? && rest.capped && w.next == rest.next && w.items == PageOf(all, n, k) + rest.items
  {
  }

  /** A capped poll takes page 1 and the stretch from its continuation to the next. */
  lemma CappedPollTakes(q: Queue, all: seq<Project>, n: nat, limits: Limits)
    requires limits.maxSeen > 0 && limits.maxPages > 0 && q.seen != [] && q.page >= 2
    requires Polled(q, Still(all, n), limits).capped
    ensures var next := Polled(q, Still(all, n), limits).queue;
            && next.seen == q.seen && next.page >= q.page && NewPages(Still(all, n), q.seen, 1, 1)
            && NewPages(Still(all, n), q.seen, q.page, next.page - q.page)
            && At(all, n, q.page) <= At(all, n, next.page)
            && Delivers(q, all, At(all, n, q.page), At(all, n, next.page), next.pending)
            && UidSet(q.pending) <= UidSet(next.pending)
            && OnlyFrom(q, all[..At(all, n, next.page)], next.pending)
  {
    var feed := Still(all, n);
    var first := PageOf(all, n, 1);
    CappedTakes(all, n, q.seen, q.page, 1, limits.maxPages);
    var w := WalkFrom(feed, q.seen, q.page, 1, limits.maxPages);
    FoundUids(q, first + w.items);
    StretchDelivers(q, all, At(all, n, q.page), At(all, n, w.next), first, q.pending + Found(q, first + w.items));
    AtGrows(all, n, 2, w.next);
    InFront(all, At(all, n, 2), At(all, n, q.page), At(all, n, w.next));
  }

  lemma InFront(all: seq<Project>, end: nat, from: nat, to: nat)
    requires end <= to && from <= to <= |all|
    ensures forall p <- all[..end] + all[from..to] :: p in all[..to]
  {
    assert all[..to] == all[..from] + all[from..to] && all[..to] == all[..end] + all[end..to];
  }

  lemma {:induction false} AtGrows(all: seq<Project>, n: nat, k: nat, m: nat)
    requires k <= m
    ensures At(all, n, k) <= At(all, n, m)
  {
    if k < m {
      AtGrows(all, n, k, m - 1);
      PagesFollow(all, n, m - 1);
    }
  }

  /** Whatever has become pending is one of these and was wanted. */
  ghost predicate OnlyFrom(q: Queue, items: seq<Project>, pending: seq<Project>) {
    forall p <- pending :: p in q.pending || (p in items && Wanted(q, p))
  }

  lemma StretchDelivers(q: Queue, all: seq<Project>, from: nat, to: nat, first: seq<Project>, pending: seq<Project>)
    requires from <= to <= |all|
    requires forall p <- first + all[from..to] | Wanted(q, p) :: p.uid in UidSet(pending)
    ensures Delivers(q, all, from, to, pending)
  {
    forall i | from <= i < to && Wanted(q, all[i]) ensures all[i].uid in UidSet(pending) {
      assert all[i] == all[from..to][i - from];
      assert all[i] in first + all[from..to];
    }
  }

  /** A page at which a walk stops. */
  ghost predicate Stops(all: seq<Project>, n: nat, seen: seq<string>, k: nat) {
    PageOf(all, n, k) == [] || FullySeen(PageOf(all, n, k), seen)
  }

  /** The poll from q that left 'next' took page 1 and the pages from q's own to this one. */
  ghost predicate TakenLast(q: Queue, next: Queue, all: seq<Project>, n: nat, stop: nat) {
    && (if stop == 1 then q.page == 2 else stop >= q.page)
    && Delivers(q, all, 0, At(all, n, 2), next.pending)
    && (stop > 1 ==> Delivers(q, all, At(all, n, q.page), At(all, n, stop + 1), next.pending))
    && UidSet(q.pending) <= UidSet(next.pending) && OnlyFrom(q, all[..At(all, n, stop + 1)], next.pending)
  }

  /** A poll that meets no cap goes on to a page at which a walk stops. */
  lemma LastPollTakes(q: Queue, all: seq<Project>, n: nat, limits: Limits) returns (stop: nat)
    requires limits.maxSeen > 0 && q.seen != [] && q.page >= 2
    requires q.page == 2 || NewPages(Still(all, n), q.seen, 1, 1)
    requires !Polled(q, Still(all, n), limits).capped
    ensures Stops(all, n, q.seen, stop) && TakenLast(q, Polled(q, Still(all, n), limits).queue, all, n, stop)
  {
    var feed, first := Still(all, n), PageOf(all, n, 1);
    if first == [] || FullySeen(first, q.seen) {
      stop := 1;
      FoundUids(q, first);
      StretchDelivers(q, all, 0, At(all, n, 2), [], q.pending + Found(q, first));
    } else {
      StillWalks(all, n, q.seen, q.page, 1, limits.maxPages);
      stop := WalkTakes(all, n, q.seen, q.page, 1, limits.maxPages);
      var w := WalkFrom(feed, q.seen, q.page, 1, limits.maxPages);
      LastWalkTakes(q, all, n, w.items, stop);
    }
  }

  lemma LastWalkTakes(q: Queue, all: seq<Project>, n: nat, items: seq<Project>, stop: nat)
    requires 2 <= q.page <= stop && Stretch(all, n, q.seen, q.page, stop, items)
    ensures var pending := q.pending + Found(q, PageOf(all, n, 1) + items);
            && Delivers(q, all, 0, At(all, n, 2), pending)
            && Delivers(q, all, At(all, n, q.page), At(all, n, stop + 1), pending)
            && OnlyFrom(q, all[..At(all, n, stop + 1)], pending) && UidSet(q.pending) <= UidSet(pending)
  {
    var first := PageOf(all, n, 1);
    var pending := q.pending + Found(q, first + items);
    FoundUids(q, first + items);
    AtGrows(all, n, 2, stop + 1);
    InFront(all, At(all, n, 2), At(all, n, q.page), At(all, n, stop + 1));
    StretchDelivers(q, all, At(all, n, q.page), At(all, n, stop + 1), first, pending);
    StretchDelivers(q, all, 0, At(all, n, 2), [], pending);
  }

  /** The first k polls, each from the queue the one before it left. */
  ghost predicate PollsInARow(queues: seq<Queue>, feed: Feed, limits: Limits)
    requires limits.maxSeen > 0
  {
    forall i | 0 <= i < |queues| - 1 :: queues[i + 1] == Polled(queues[i], feed, limits).queue
  }

  /** What capped polls in a row have taken so far. */
  ghost predicate TakenSoFar(q: Queue, later: Queue, all: seq<Project>, n: nat) {
    && later.seen == q.seen && later.page >= 2 && At(all, n, 2) <= At(all, n, later.page)
    && NewPages(Still(all, n), q.seen, 2, later.page - 2)
    && Delivers(q, all, At(all, n, 2), At(all, n, later.page), later.pending)
    && UidSet(q.pending) <= UidSet(later.pending)
    && OnlyFrom(q, all[..At(all, n, later.page)], later.pending)
  }

  /** What a later queue has not taken yet was wanted from the start. */
  lemma StillWanted(q: Queue, later: Queue, all: seq<Project>, from: nat, to: nat, pending: seq<Project>)
    requires later.seen == q.seen && UidSet(q.pending) <= UidSet(later.pending) <= UidSet(pending)
    requires to <= |all| && Delivers(later, all, from, to, pending)
    ensures Delivers(q, all, from, to, pending)
  {
    forall i | from <= i < to && Wanted(q, all[i]) ensures all[i].uid in UidSet(pending) {
      if !Wanted(later, all[i]) {
        assert all[i].uid in UidSet(later.pending);
      }
    }
  }

  lemma OnlyFromAll(q: Queue, later: Queue, items: seq<Project>, more: seq<Project>, pending: seq<Project>)
    requires later.seen == q.seen && UidSet(q.pending) <= UidSet(later.pending)
    requires OnlyFrom(q, items, later.pending) && OnlyFrom(later, more, pending) && forall p <- items :: p in more
    ensures OnlyFrom(q, more, pending)
  {
  }

  lemma DeliversBoth(q: Queue, all: seq<Project>, from: nat, mid: nat, to: nat, before: seq<Project>,
      pending: seq<Project>)
    requires mid <= to <= |all| && UidSet(before) <= UidSet(pending)
    requires Delivers(q, all, from, mid, before) && Delivers(q, all, mid, to, pending)
    ensures Delivers(q, all, from, to, pending)
  {
  }

  lemma {:induction false} CappedPollsTake(queues: seq<Queue>, all: seq<Project>, n: nat, limits: Limits, k: nat)
    requires limits.maxSeen > 0 && limits.maxPages > 0 && k < |queues|
    requires PollsInARow(queues, Still(all, n), limits) && queues[0].page == 2 && queues[0].seen != []
    requires forall i | 0 <= i < k :: Polled(queues[i], Still(all, n), limits).capped
    ensures TakenSoFar(queues[0], queues[k], all, n)
    ensures k > 0 ==> NewPages(Still(all, n), queues[0].seen, 1, 1)
  {
    var q := queues[0];
    if k > 0 {
      var later := queues[k - 1];
      CappedPollsTake(queues, all, n, limits, k - 1);
      CappedPollTakes(later, all, n, limits);
      OneMoreCapped(q, later, queues[k], all, n);
    }
  }

  lemma OneMoreCapped(q: Queue, later: Queue, next: Queue, all: seq<Project>, n: nat)
    requires TakenSoFar(q, later, all, n)
    requires next.seen == later.seen && next.page >= later.page
    requires NewPages(Still(all, n), later.seen, later.page, next.page - later.page)
    requires Delivers(later, all, At(all, n, later.page), At(all, n, next.page), next.pending)
    requires UidSet(later.pending) <= UidSet(next.pending)
    requires OnlyFrom(later, all[..At(all, n, next.page)], next.pending)
    ensures TakenSoFar(q, next, all, n)
  {
    var a, b, c := At(all, n, 2), At(all, n, later.page), At(all, n, next.page);
    AtGrows(all, n, later.page, next.page);
    StillWanted(q, later, all, b, c, next.pending);
    DeliversBoth(q, all, a, b, c, later.pending, next.pending);
    InFront(all, b, c, c);
    assert all[c..c] == [];
    OnlyFromAll(q, later, all[..b], all[..c], next.pending);
  }

  lemma {:induction false} PollsKeepPending(queues: seq<Queue>, feed: Feed, limits: Limits, k: nat)
    requires k < |queues| && Sound(queues[0], limits) && PollsInARow(queues, feed, limits)
    ensures Sound(queues[k], limits)
    ensures |queues[0].pending| <= |queues[k].pending|
    ensures queues[k].pending[..|queues[0].pending|] == queues[0].pending
  {
    if k > 0 {
      PollsKeepPending(queues, feed, limits, k - 1);
      PollReturnsPending(queues[k - 1], feed, limits);
      var before, after := queues[k - 1].pending, queues[k].pending;
      assert after[..|before|][..|queues[0].pending|] == after[..|queues[0].pending|];
    }
  }

  lemma LastDelivers(q: Queue, later: Queue, end: Queue, all: seq<Project>, n: nat, stop: nat)
    requires q.page == 2 && TakenSoFar(q, later, all, n) && TakenLast(later, end, all, n, stop)
    ensures stop >= 1 && Delivers(q, all, 0, At(all, n, stop + 1), end.pending)
  {
    var a, b, c := At(all, n, 2), At(all, n, later.page), At(all, n, stop + 1);
    StillWanted(q, later, all, 0, a, end.pending);
    if stop > 1 {
      AtGrows(all, n, later.page, stop + 1);
      StillWanted(q, later, all, b, c, end.pending);
      DeliversBoth(q, all, a, b, c, later.pending, end.pending);
      DeliversBoth(q, all, 0, a, c, end.pending, end.pending);
    }
  }

  lemma LastOnly(q: Queue, later: Queue, end: Queue, all: seq<Project>, n: nat, stop: nat)
    requires TakenSoFar(q, later, all, n) && TakenLast(later, end, all, n, stop)
    ensures OnlyFrom(q, all[..At(all, n, stop + 1)], end.pending)
  {
    var b, c := At(all, n, later.page), At(all, n, stop + 1);
    AtGrows(all, n, later.page, stop + 1);
    InFront(all, b, c, c);
    assert all[c..c] == [];
    OnlyFromAll(q, later, all[..b], all[..c], end.pending);
  }

  /** All the polls together: everything wanted up to where the last one stops, and nothing else. */
  lemma BacklogTaken(queues: seq<Queue>, all: seq<Project>, n: nat, limits: Limits) returns (stop: nat)
    requires limits.maxSeen > 0 && limits.maxPages > 0 && |queues| >= 2
    requires queues[0].seen != [] && queues[0].page == 2 && PollsInARow(queues, Still(all, n), limits)
    requires forall i | 0 <= i < |queues| - 2 :: Polled(queues[i], Still(all, n), limits).capped
    requires !Polled(queues[|queues| - 2], Still(all, n), limits).capped
    ensures var q, end := queues[0], queues[|queues| - 1];
            && Stops(all, n, q.seen, stop) && stop >= 1 && At(all, n, stop + 1) <= |all|
            && Delivers(q, all, 0, At(all, n, stop + 1), end.pending)
            && OnlyFrom(q, all[..At(all, n, stop + 1)], end.pending)
  {
    var q, later, end := queues[0], queues[|queues| - 2], queues[|queues| - 1];
    CappedPollsTake(queues, all, n, limits, |queues| - 2);
    LastOneIsFirst(queues, all, n, limits);
    stop := LastPollTakes(later, all, n, limits);
    LastDelivers(q, later, end, all, n, stop);
    LastOnly(q, later, end, all, n, stop);
  }

  lemma LastOneIsFirst(queues: seq<Queue>, all: seq<Project>, n: nat, limits: Limits)
    requires limits.maxSeen > 0 && |queues| >= 2 && PollsInARow(queues, Still(all, n), limits)
    ensures queues[|queues| - 1] == Polled(queues[|queues| - 2], Still(all, n), limits).queue
  {
    assert queues[|queues| - 2 + 1] == queues[|queues| - 1];
  }

  lemma TailIsNew(q: Queue, items: seq<Project>, pending: seq<Project>)
    requires DistinctUids(items) && Named(items) && DistinctUids(pending)
    requires |q.pending| <= |pending| && pending[..|q.pending|] == q.pending
    requires forall i | 0 <= i < |items| && Wanted(q, items[i]) :: items[i].uid in UidSet(pending)
    requires OnlyFrom(q, items, pending)
    ensures forall p :: p in pending[|q.pending|..] <==> p in items && Open(q, p)
  {
    var k := |q.pending|;
    var tail := pending[k..];
    assert pending == q.pending + tail;
    forall p ensures p in tail <==> p in items && Open(q, p) {
      if p in tail {
        var j :| 0 <= j < |tail| && tail[j] == p;
        NotInFront(q.pending, pending, k + j);
        assert p in pending;
      } else if p in items && Open(q, p) {
        OneUid(q, items, pending, p);
      }
    }
  }

  lemma NotInFront(front: seq<Project>, pending: seq<Project>, j: nat)
    requires DistinctUids(pending) && |front| <= j < |pending| && pending[..|front|] == front
    ensures pending[j] !in front
  {
    assert forall i | 0 <= i < |front| :: front[i] == pending[i];
  }

  /** The project pending under a wanted uid is the wanted one. */
  lemma OneUid(q: Queue, items: seq<Project>, pending: seq<Project>, p: Project)
    requires DistinctUids(items) && Named(items) && p in items && Open(q, p)
    requires forall i | 0 <= i < |items| && Wanted(q, items[i]) :: items[i].uid in UidSet(pending)
    requires OnlyFrom(q, items, pending)
    ensures p in pending && p !in q.pending
  {
    var i :| 0 <= i < |items| && items[i] == p;
    assert Wanted(q, items[i]);
    var r :| r in pending && r.uid == p.uid;
    assert r !in q.pending && r in items;
    var j :| 0 <= j < |items| && items[j] == r;
    assert i == j;
  }

  /**
   Main result: over a still feed, however long the backlog, capped polls in a row and
   the first one that meets no cap leave pending, each once, exactly what was and every
   project neither seen nor pending up to the page where the last poll stops.
   */
  lemma BacklogIsDelivered(queues: seq<Queue>, all: seq<Project>, n: nat, limits: Limits) returns (stop: nat)
    requires |queues| >= 2 && Sound(queues[0], limits) && queues[0].seen != [] && queues[0].page == 2
    requires limits.maxPages > 0 && DistinctUids(all) && Named(all)
    requires PollsInARow(queues, Still(all, n), limits)
    requires forall i | 0 <= i < |queues| - 2 :: MeetsCap(queues[i], Still(all, n), limits)
    requires !MeetsCap(queues[|queues| - 2], Still(all, n), limits)
    ensures var q, end := queues[0], queues[|queues| - 1];
            && stop >= 1 && (PageOf(all, n, stop) == [] || FullySeen(PageOf(all, n, stop), q.seen))
            && Sound(end, limits) && At(all, n, stop + 1) <= |all|
            && |q.pending| <= |end.pending| && end.pending[..|q.pending|] == q.pending
            && (forall p :: p in end.pending[|q.pending|..] <==> p in all[..At(all, n, stop + 1)] && Open(q, p))
            && (n > 0 && NothingNewBeyond(q, all, n) ==>
                  forall p :: p in end.pending[|q.pending|..] <==> p in all && Open(q, p))
  {
    CapsAre(queues, Still(all, n), limits);
    stop := BacklogTaken(queues, all, n, limits);
    PollsKeepPending(queues, Still(all, n), limits, |queues| - 1);
    var q, end, items := queues[0], queues[|queues| - 1], all[..At(all, n, stop + 1)];
    NewestAre(q, all, At(all, n, stop + 1), end.pending);
    if n > 0 && NothingNewBeyond(q, all, n) {
      NothingBeyond(q, all, n, stop);
      assert all == items + all[|items|..];
    }
  }

  lemma CapsAre(queues: seq<Queue>, feed: Feed, limits: Limits)
    requires limits.maxSeen > 0
    ensures forall i | 0 <= i < |queues| ::
              Polled(queues[i], feed, limits).capped <==> MeetsCap(queues[i], feed, limits)
  {
    forall i | 0 <= i < |queues|
      ensures Polled(queues[i], feed, limits).capped <==> MeetsCap(queues[i], feed, limits)
    {
      PollCappedIff(queues[i], feed, limits);
    }
  }

  lemma NewestAre(q: Queue, all: seq<Project>, to: nat, pending: seq<Project>)
    requires DistinctUids(all) && Named(all) && to <= |all| && DistinctUids(pending)
    requires |q.pending| <= |pending| && pending[..|q.pending|] == q.pending
    requires Delivers(q, all, 0, to, pending) && OnlyFrom(q, all[..to], pending)
    ensures forall p :: p in pending[|q.pending|..] <==> p in all[..to] && Open(q, p)
  {
    assert Named(all[..to]);
    TailIsNew(q, all[..to], pending);
  }
}
