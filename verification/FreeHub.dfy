/**
 FreeHub discovery for one upstream platform: bounded backfill over a
 newest-first paged feed, a durable pending list, and the bounded window of ids
 already processed.
 */
module FreeHub {
  import opened Options

  datatype Project = Project(uid: string, body: nat)

  /** What is stored: ids processed, oldest first; projects handed out and not yet processed; the page to go on from. */
  datatype Queue = Queue(seen: seq<string>, pending: seq<Project>, page: nat)

  datatype Limits = Limits(maxPages: nat, maxSeen: nat)

  /** fetch(page), or None when the request fails. */
  type Feed = nat -> Option<seq<Project>>

  function Uids(items: seq<Project>): (r: seq<string>)
    ensures |r| == |items| && forall i | 0 <= i < |r| :: r[i] == items[i].uid
  {
    seq(|items|, i requires 0 <= i < |items| => items[i].uid)
  }

  function UidSet(items: seq<Project>): set<string> { set p | p in items :: p.uid }

  /** A deque with a length limit drops its oldest entry. */
  function Appended(seen: seq<string>, uid: string, maxSeen: nat): (r: seq<string>)
    requires maxSeen > 0
    ensures |seen| <= maxSeen ==> |r| <= maxSeen
    ensures |r| > 0 && r[|r| - 1] == uid
  {
    if |seen| < maxSeen then seen + [uid] else (seen + [uid])[|seen| + 1 - maxSeen..]
  }

  function Extended(seen: seq<string>, uids: seq<string>, maxSeen: nat): (r: seq<string>)
    requires maxSeen > 0
    ensures |seen| <= maxSeen ==> |r| <= maxSeen
    decreases |uids|
  {
    if uids == [] then seen else Extended(Appended(seen, uids[0], maxSeen), uids[1..], maxSeen)
  }

  /** _page_fully_seen. */
  predicate FullySeen(items: seq<Project>, seen: seq<string>) {
    items != [] && forall p <- items :: p.uid in seen
  }

  // ---- one poll, as a function ----

  datatype Walk =
    | Walk(items: seq<Project>, pages: seq<nat>, next: nat, capped: bool, requests: nat)
    | Broken(requests: nat)

  /** The backfill loop: the projects of the pages it keeps, and where the next backfill begins. */
  function WalkFrom(feed: Feed, seen: seq<string>, page: nat, fetched: nat, maxPages: nat): (w: Walk)
    ensures fetched <= maxPages ==> fetched + w.requests <= maxPages
    decreases maxPages - fetched
  {
    if fetched >= maxPages then Walk([], [], page, true, 0)
    else match feed(page)
      case None => Broken(1)
      case Some(items) =>
        if items == [] then Walk([], [], 2, false, 1)
        else if FullySeen(items, seen) then Walk(items, [page], 2, false, 1)
        else match WalkFrom(feed, seen, page + 1, fetched + 1, maxPages)
          case Broken(n) => Broken(n + 1)
          case Walk(rest, pages, next, capped, n) => Walk(items + rest, [page] + pages, next, capped, n + 1)
  }

  /** The new projects among the items, from the last (oldest) to the first, each once. */
  function Fresh(seen: seq<string>, known: set<string>, items: seq<Project>): seq<Project>
    decreases |items|
  {
    if items == [] then []
    else
      var n := |items| - 1;
      var p := items[n];
      if p.uid == "" || p.uid in seen || p.uid in known then Fresh(seen, known, items[..n])
      else [p] + Fresh(seen, known + {p.uid}, items[..n])
  }

  datatype Poll = Poll(result: Option<seq<Project>>, queue: Queue, requests: nat, capped: bool, pages: seq<nat>)

  function Found(q: Queue, items: seq<Project>): seq<Project> { Fresh(q.seen, UidSet(q.pending), items) }

  /** poll_source. */
  function Polled(q: Queue, feed: Feed, limits: Limits): Poll
    requires limits.maxSeen > 0
  {
    match feed(1)
    case None => Poll(None, q, 1, false, [])
    case Some(first) =>
      if first == [] then Poll(Some(q.pending), q, 1, false, [])
      else if q.seen == [] then
        Poll(Some(q.pending), q.(seen := Extended([], Uids(first), limits.maxSeen)), 1, false, [])
      else if FullySeen(first, q.seen) then
        Delivered(q.(page := 2), first, 1, false, [])
      else
        match WalkFrom(feed, q.seen, if q.page < 2 then 2 else q.page, 1, limits.maxPages)
        case Broken(n) => Poll(None, q, n + 1, false, [])
        case Walk(items, pages, next, capped, n) => Delivered(q.(page := next), first + items, n + 1, capped, pages)
  }

  function Delivered(q: Queue, items: seq<Project>, requests: nat, capped: bool, pages: seq<nat>): Poll {
    var pending := q.pending + Found(q, items);
    Poll(Some(pending), q.(pending := pending), requests, capped, pages)
  }

  /** mark_project_seen: the first write alone, as a crash between the two leaves it. */
  function SeenWritten(q: Queue, p: Project, limits: Limits): Queue
    requires limits.maxSeen > 0
  {
    if p.uid == "" || p.uid in q.seen then q else q.(seen := Appended(q.seen, p.uid, limits.maxSeen))
  }

  function Without(pending: seq<Project>, uid: string): (r: seq<Project>)
    ensures forall p :: p in r <==> p in pending && p.uid != uid
  {
    if pending == [] then []
    else
      var r := (if pending[0].uid != uid then [pending[0]] else []) + Without(pending[1..], uid);
      assert pending == [pending[0]] + pending[1..];
      r
  }

  function Marked(q: Queue, p: Project, limits: Limits): Queue
    requires limits.maxSeen > 0
  {
    if p.uid == "" then q
    else SeenWritten(q, p, limits).(pending := Without(q.pending, p.uid))
  }

  // ---- the loops ----

  class Hub {
    var seen: seq<string>
    var pending: seq<Project>
    var page: nat
    const limits: Limits

    constructor (q: Queue, limits: Limits)
      ensures State() == q && this.limits == limits
    {
      seen, pending, page := q.seen, q.pending, q.page;
      this.limits := limits;
    }

    ghost function State(): Queue
      reads this
    {
      Queue(seen, pending, page)
    }

    method Poll(feed: Feed) returns (result: Option<seq<Project>>, requests: nat)
      requires limits.maxSeen > 0
      modifies this
      ensures var p := Polled(old(State()), feed, limits);
              result == p.result && State() == p.queue && requests == p.requests
    {
      requests := 1;
      if feed(1) == None {
        return None, requests;
      }
      var projects := feed(1).value;
      if projects == [] {
        return Some(pending), requests;
      }
      if seen == [] {
        seen := Extended([], Uids(projects), limits.maxSeen);
        return Some(pending), requests;
      }
      var fetched := projects;
      if FullySeen(projects, seen) {
        page := 2;
      } else {
        var walk := Backfill(feed, if page < 2 then 2 else page);
        requests := requests + walk.requests;
        if walk.Broken? {
          return None, requests;
        }
        fetched := fetched + walk.items;
        page := walk.next;
      }
      var discovered := Discover(fetched);
      pending := pending + discovered;
      return Some(pending), requests;
    }

    method Backfill(feed: Feed, start: nat) returns (walk: Walk)
      ensures walk == WalkFrom(feed, seen, start, 1, limits.maxPages)
    {
      var at, fetched := start, 1;
      var items: seq<Project>, pages: seq<nat>, requests: nat := [], [], 0;
      ghost var whole := WalkFrom(feed, seen, start, 1, limits.maxPages);
      while fetched < limits.maxPages
        invariant fetched == 1 + requests
        invariant whole == Behind(items, pages, requests, WalkFrom(feed, seen, at, fetched, limits.maxPages))
        decreases limits.maxPages - fetched
      {
        WalkStep(feed, seen, at, fetched, limits.maxPages, items, pages, requests);
        requests := requests + 1;
        if feed(at) == None {
          return Broken(requests);
        }
        var next := feed(at).value;
        if next == [] {
          return Walk(items, pages, 2, false, requests);
        }
        items, pages, fetched := items + next, pages + [at], fetched + 1;
        if FullySeen(next, seen) {
          return Walk(items, pages, 2, false, requests);
        }
        at := at + 1;
      }
      return Walk(items, pages, at, true, requests);
    }

    method Discover(items: seq<Project>) returns (discovered: seq<Project>)
      ensures discovered == Found(State(), items)
    {
      var known := UidSet(pending);
      discovered := [];
      var i := |items|;
      assert items[..i] == items;
      while i > 0
        invariant 0 <= i <= |items|
        invariant Found(State(), items) == discovered + Fresh(seen, known, items[..i])
      {
        i := i - 1;
        var p := items[i];
        assert items[..i + 1][..i] == items[..i];
        if p.uid != "" && p.uid !in seen && p.uid !in known {
          known := known + {p.uid};
          discovered := discovered + [p];
        }
      }
    }

    method MarkSeen(p: Project)
      requires limits.maxSeen > 0
      modifies this`seen, this`pending
      ensures State() == Marked(old(State()), p, limits)
    {
      if p.uid == "" {
        return;
      }
      if p.uid !in seen {
        seen := Appended(seen, p.uid, limits.maxSeen);
      }
      pending := Without(pending, p.uid);
    }
  }

  /** A walk that comes after pages already kept. */
  function Behind(items: seq<Project>, pages: seq<nat>, requests: nat, w: Walk): Walk {
    match w
    case Broken(n) => Broken(requests + n)
    case Walk(rest, morePages, next, capped, n) => Walk(items + rest, pages + morePages, next, capped, requests + n)
  }

  lemma WalkStep(feed: Feed, seen: seq<string>, at: nat, fetched: nat, maxPages: nat,
                 items: seq<Project>, pages: seq<nat>, requests: nat)
    requires fetched < maxPages
    ensures Behind(items, pages, requests, WalkFrom(feed, seen, at, fetched, maxPages)) ==
            if feed(at) == None then Broken(requests + 1)
            else
              var next := feed(at).value;
              if next == [] then Walk(items, pages, 2, false, requests + 1)
              else if FullySeen(next, seen) then Walk(items + next, pages + [at], 2, false, requests + 1)
              else Behind(items + next, pages + [at], requests + 1, WalkFrom(feed, seen, at + 1, fetched + 1, maxPages))
  {
    if feed(at).Some? {
      var next := feed(at).value;
      var rest := WalkFrom(feed, seen, at + 1, fetched + 1, maxPages);
      if rest.Walk? {
        assert items + (next + rest.items) == items + next + rest.items;
        assert pages + ([at] + rest.pages) == pages + [at] + rest.pages;
      }
      assert items + [] == items && pages + [] == pages;
    }
  }

  // ---- when a poll meets the cap, told from the feed and the window ----

  /** Each of these pages comes, holds something, and shows something unseen. */
  ghost predicate NewPages(feed: Feed, seen: seq<string>, from: nat, count: nat) {
    forall k | from <= k < from + count :: feed(k).Some? && feed(k).value != [] && !FullySeen(feed(k).value, seen)
  }

  /** The first page and as many pages from the continuation on as a poll may ask for. */
  ghost predicate MeetsCap(q: Queue, feed: Feed, limits: Limits) {
    && q.seen != [] && NewPages(feed, q.seen, 1, 1)
    && (limits.maxPages > 1 ==> NewPages(feed, q.seen, if q.page < 2 then 2 else q.page, limits.maxPages - 1))
  }

  lemma {:induction false} WalkCappedIff(feed: Feed, seen: seq<string>, page: nat, fetched: nat, maxPages: nat)
    requires fetched <= maxPages
    ensures var w := WalkFrom(feed, seen, page, fetched, maxPages);
            w.Walk? && w.capped <==> NewPages(feed, seen, page, maxPages - fetched)
    decreases maxPages - fetched
  {
    if fetched < maxPages {
      WalkCappedIff(feed, seen, page + 1, fetched + 1, maxPages);
      NewPagesFrom(feed, seen, page, maxPages - fetched);
    }
  }

  lemma NewPagesFrom(feed: Feed, seen: seq<string>, from: nat, count: nat)
    requires count > 0
    ensures NewPages(feed, seen, from, count) <==>
            feed(from).Some? && feed(from).value != [] && !FullySeen(feed(from).value, seen)
            && NewPages(feed, seen, from + 1, count - 1)
  {
  }

  lemma PollCappedIff(q: Queue, feed: Feed, limits: Limits)
    requires limits.maxSeen > 0
    ensures Polled(q, feed, limits).capped <==> MeetsCap(q, feed, limits)
  {
    NewPagesFrom(feed, q.seen, 1, 1);
    if limits.maxPages > 1 {
      WalkCappedIff(feed, q.seen, if q.page < 2 then 2 else q.page, 1, limits.maxPages);
    }
  }

  // ---- completeness over a still feed ----

  /** Where page k of the feed begins, with n projects to a page. */
  function At(all: seq<Project>, n: nat, k: nat): (r: nat)
    ensures r <= |all|
  {
    if k <= 1 then 0
    else
      var before := At(all, n, k - 1);
      if before + n < |all| then before + n else |all|
  }

  lemma PagesFollow(all: seq<Project>, n: nat, k: nat)
    ensures At(all, n, k) <= At(all, n, k + 1)
  {
  }

  function PageOf(all: seq<Project>, n: nat, k: nat): seq<Project> {
    PagesFollow(all, n, k);
    all[At(all, n, k)..At(all, n, k + 1)]
  }

  /** A feed that does not move while it is polled: 'all', newest first, n to a page. */
  function Still(all: seq<Project>, n: nat): Feed { (k: nat) => Some(PageOf(all, n, k)) }

  ghost predicate DistinctUids(items: seq<Project>) {
    forall i, j | 0 <= i < j < |items| :: items[i].uid != items[j].uid
  }

  ghost predicate Named(items: seq<Project>) { forall p <- items :: p.uid != "" }

  /** New and unclaimed. */
  predicate Open(q: Queue, p: Project) { p.uid !in q.seen && p.uid !in UidSet(q.pending) }

  /** Past a page of processed projects there is nothing new. */
  ghost predicate NothingNewBeyond(q: Queue, all: seq<Project>, n: nat) {
    forall k: nat, i | k >= 1 && FullySeen(PageOf(all, n, k), q.seen) && At(all, n, k + 1) <= i < |all| ::
        !Open(q, all[i])
  }

  /** p comes later in the newest-first list than r: it is older. */
  ghost predicate Older(items: seq<Project>, p: Project, r: Project) {
    exists a, b :: 0 <= b < a < |items| && items[a] == p && items[b] == r
  }

  ghost predicate OldestFirst(items: seq<Project>, found: seq<Project>) {
    forall i, j | 0 <= i < j < |found| :: Older(items, found[i], found[j])
  }

  /** From a newest-first list: exactly the open ones, oldest first. */
  ghost predicate OpenOldestFirst(q: Queue, all: seq<Project>, found: seq<Project>) {
    && (forall p :: p in found <==> p in all && Open(q, p))
    && OldestFirst(all, found)
  }

  lemma OlderGrows(items: seq<Project>, more: seq<Project>, found: seq<Project>)
    requires OldestFirst(items, found)
    ensures OldestFirst(items + more, found)
  {
    forall i, j | 0 <= i < j < |found| ensures Older(items + more, found[i], found[j]) {
      assert Older(items, found[i], found[j]);
      var a, b :| 0 <= b < a < |items| && items[a] == found[i] && items[b] == found[j];
      assert (items + more)[a] == found[i] && (items + more)[b] == found[j];
    }
  }

  lemma OldestInFront(items: seq<Project>, p: Project, rest: seq<Project>)
    requires OldestFirst(items, rest) && forall r <- rest :: r in items
    ensures OldestFirst(items + [p], [p] + rest)
  {
    var found := [p] + rest;
    OlderGrows(items, [p], rest);
    forall i, j | 0 <= i < j < |found| ensures Older(items + [p], found[i], found[j]) {
      if i == 0 {
        assert rest[j - 1] in rest;
        var b :| 0 <= b < |items| && items[b] == rest[j - 1];
        assert (items + [p])[|items|] == found[0] && (items + [p])[b] == found[j];
      } else {
        assert Older(items + [p], rest[i - 1], rest[j - 1]);
      }
    }
  }

  lemma {:induction false} FreshMembers(seen: seq<string>, known: set<string>, items: seq<Project>)
    requires DistinctUids(items) && Named(items)
    ensures forall p :: p in Fresh(seen, known, items) <==> p in items && p.uid !in seen && p.uid !in known
    decreases |items|
  {
    if items != [] {
      var n := |items| - 1;
      var before, p := items[..n], items[n];
      assert items == before + [p] && p in items;
      FreshMembers(seen, known, before);
      FreshMembers(seen, known + {p.uid}, before);
      forall r | r in before ensures r.uid != p.uid {
        var k :| 0 <= k < n && before[k] == r;
      }
    }
  }

  lemma {:induction false} FreshOrder(seen: seq<string>, known: set<string>, items: seq<Project>)
    requires DistinctUids(items) && Named(items)
    ensures OldestFirst(items, Fresh(seen, known, items))
    decreases |items|
  {
    if items != [] {
      var n := |items| - 1;
      var before, p := items[..n], items[n];
      assert items == before + [p] && p in items;
      if p.uid in seen || p.uid in known {
        FreshOrder(seen, known, before);
        OlderGrows(before, [p], Fresh(seen, known, before));
      } else {
        var rest := Fresh(seen, known + {p.uid}, before);
        FreshOrder(seen, known + {p.uid}, before);
        FreshMembers(seen, known + {p.uid}, before);
        OldestInFront(before, p, rest);
        assert Fresh(seen, known, items) == [p] + rest;
      }
    }
  }

  /** The pages from k to m, the last of them empty or fully seen. */
  ghost predicate Stretch(all: seq<Project>, n: nat, seen: seq<string>, k: nat, m: nat, items: seq<Project>) {
    && k <= m && (PageOf(all, n, m) == [] || FullySeen(PageOf(all, n, m), seen))
    && At(all, n, k) <= At(all, n, m + 1) && items == all[At(all, n, k)..At(all, n, m + 1)]
  }

  /** An uncapped walk takes every page from k to one that is empty or fully seen. */
  lemma {:induction false} WalkTakes(
      all: seq<Project>, n: nat, seen: seq<string>, k: nat, fetched: nat, maxPages: nat) returns (m: nat)
    requires k >= 1
    requires var w := WalkFrom(Still(all, n), seen, k, fetched, maxPages); w.Walk? && !w.capped
    ensures Stretch(all, n, seen, k, m, WalkFrom(Still(all, n), seen, k, fetched, maxPages).items)
    decreases maxPages - fetched
  {
    if PageOf(all, n, k) == [] || FullySeen(PageOf(all, n, k), seen) {
      m := k;
      PagesFollow(all, n, k);
      WalkEndsHere(all, n, seen, k, fetched, maxPages);
    } else {
      WalkedOnePage(all, n, seen, k, fetched, maxPages);
      m := WalkTakes(all, n, seen, k + 1, fetched + 1, maxPages);
      OneMorePage(all, n, seen, k, m, WalkFrom(Still(all, n), seen, k + 1, fetched + 1, maxPages).items);
    }
  }

  lemma OneMorePage(all: seq<Project>, n: nat, seen: seq<string>, k: nat, m: nat, rest: seq<Project>)
    requires Stretch(all, n, seen, k + 1, m, rest)
    ensures Stretch(all, n, seen, k, m, PageOf(all, n, k) + rest)
  {
    PagesFollow(all, n, k);
    SlicesJoin(all, At(all, n, k), At(all, n, k + 1), At(all, n, m + 1));
  }

  lemma WalkEndsHere(all: seq<Project>, n: nat, seen: seq<string>, k: nat, fetched: nat, maxPages: nat)
    requires fetched < maxPages && (PageOf(all, n, k) == [] || FullySeen(PageOf(all, n, k), seen))
    ensures var w := WalkFrom(Still(all, n), seen, k, fetched, maxPages);
            w.Walk? && w.items == all[At(all, n, k)..At(all, n, k + 1)]
  {
  }

  lemma WalkedOnePage(all: seq<Project>, n: nat, seen: seq<string>, k: nat, fetched: nat, maxPages: nat)
    requires fetched < maxPages && PageOf(all, n, k) != [] && !FullySeen(PageOf(all, n, k), seen)
    ensures var w, rest := WalkFrom(Still(all, n), seen, k, fetched, maxPages),
        WalkFrom(Still(all, n), seen, k + 1, fetched + 1, maxPages);
            && (w.Walk? <==> rest.Walk?)
            && (w.Walk? ==> w.capped == rest.capped && w.items == PageOf(all, n, k) + rest.items)
  {
  }

  lemma SlicesJoin(all: seq<Project>, a: nat, b: nat, c: nat)
    requires a <= b <= c <= |all|
    ensures all[a..b] + all[b..c] == all[a..c]
  {
  }

  lemma NothingBeyond(q: Queue, all: seq<Project>, n: nat, k: nat)
    requires n > 0 && k >= 1 && NothingNewBeyond(q, all, n)
    requires PageOf(all, n, k) == [] || FullySeen(PageOf(all, n, k), q.seen)
    ensures forall i | At(all, n, k + 1) <= i < |all| :: !Open(q, all[i])
  {
    PagesFollow(all, n, k);
  }

  /**
   Main result: over a still feed, a poll that meets no cap returns what was
   pending followed by every project neither seen nor pending, oldest first.
   */
  lemma PollIsComplete(q: Queue, all: seq<Project>, n: nat, limits: Limits)
    requires limits.maxSeen > 0 && n > 0 && q.seen != [] && q.page == 2
    requires DistinctUids(all) && Named(all) && NothingNewBeyond(q, all, n)
    requires !MeetsCap(q, Still(all, n), limits)
    ensures var poll := Polled(q, Still(all, n), limits);
            && poll.result.Some? && poll.queue.page == 2
            && |poll.result.value| >= |q.pending| && poll.result.value[..|q.pending|] == q.pending
            && OpenOldestFirst(q, all, poll.result.value[|q.pending|..])
  {
    PollCappedIff(q, Still(all, n), limits);
    var first := PageOf(all, n, 1);
    assert first == all[..At(all, n, 2)];
    if first == [] {
      assert all == [];
    } else if FullySeen(first, q.seen) {
      NothingBeyond(q, all, n, 1);
      TakenIsEnough(q, all, At(all, n, 2));
    } else {
      WalkIsComplete(q, all, n, limits);
    }
  }

  lemma WalkIsComplete(q: Queue, all: seq<Project>, n: nat, limits: Limits)
    requires n > 0 && DistinctUids(all) && Named(all) && NothingNewBeyond(q, all, n)
    requires var w := WalkFrom(Still(all, n), q.seen, 2, 1, limits.maxPages); w.Walk? ==> !w.capped
    ensures var w := WalkFrom(Still(all, n), q.seen, 2, 1, limits.maxPages);
            w.Walk? && w.next == 2 && OpenOldestFirst(q, all, Found(q, PageOf(all, n, 1) + w.items))
  {
    var feed := Still(all, n);
    StillWalks(all, n, q.seen, 2, 1, limits.maxPages);
    UncappedEndsAtTwo(feed, q.seen, 2, 1, limits.maxPages);
    var m := WalkTakes(all, n, q.seen, 2, 1, limits.maxPages);
    NothingBeyond(q, all, n, m);
    SlicesJoin(all, 0, At(all, n, 2), At(all, n, m + 1));
    TakenIsEnough(q, all, At(all, n, m + 1));
  }

  lemma {:induction false} StillWalks(all: seq<Project>, n: nat, seen: seq<string>, k: nat, fetched: nat, maxPages: nat)
    ensures WalkFrom(Still(all, n), seen, k, fetched, maxPages).Walk?
    decreases maxPages - fetched
  {
    if fetched < maxPages && PageOf(all, n, k) != [] && !FullySeen(PageOf(all, n, k), seen) {
      StillWalks(all, n, seen, k + 1, fetched + 1, maxPages);
    }
  }

  lemma {:induction false} UncappedEndsAtTwo(feed: Feed, seen: seq<string>, k: nat, fetched: nat, maxPages: nat)
    requires var w := WalkFrom(feed, seen, k, fetched, maxPages); w.Walk? && !w.capped
    ensures WalkFrom(feed, seen, k, fetched, maxPages).next == 2
    decreases maxPages - fetched
  {
    var items := feed(k).value;
    if items != [] && !FullySeen(items, seen) {
      UncappedEndsAtTwo(feed, seen, k + 1, fetched + 1, maxPages);
    }
  }

  /** If nothing after the first 'end' is open, the open ones are among the first 'end'. */
  lemma TakenIsEnough(q: Queue, all: seq<Project>, end: nat)
    requires end <= |all| && DistinctUids(all) && Named(all)
    requires forall i | end <= i < |all| :: !Open(q, all[i])
    ensures OpenOldestFirst(q, all, Found(q, all[..end]))
  {
    var taken := all[..end];
    assert forall p :: p in taken ==> p in all;
    FreshMembers(q.seen, UidSet(q.pending), taken);
    FreshOrder(q.seen, UidSet(q.pending), taken);
    var found := Found(q, taken);
    forall p ensures p in found <==> p in all && Open(q, p) {
      if p in all && Open(q, p) {
        var i :| 0 <= i < |all| && all[i] == p;
        assert taken[i] == p;
      }
    }
    assert all == taken + all[end..];
    OlderGrows(taken, all[end..], found);
  }

  // ---- the first poll, and the window ----

  function LastOf(uids: seq<string>, n: nat): seq<string> { if |uids| <= n then uids else uids[|uids| - n..] }

  /** Extending the bounded window keeps the newest maxSeen ids, in order. */
  lemma {:induction false} ExtendedKeepsNewest(seen: seq<string>, uids: seq<string>, maxSeen: nat)
    requires 0 < maxSeen && |seen| <= maxSeen
    ensures Extended(seen, uids, maxSeen) == LastOf(seen + uids, maxSeen)
    decreases |uids|
  {
    if uids == [] {
      assert seen + uids == seen;
    } else {
      var next := Appended(seen, uids[0], maxSeen);
      AppendedIsLast(seen, uids[0], maxSeen);
      ExtendedKeepsNewest(next, uids[1..], maxSeen);
      LastOfLast(seen + [uids[0]], uids[1..], maxSeen);
      assert seen + uids == seen + [uids[0]] + uids[1..];
    }
  }

  lemma AppendedIsLast(seen: seq<string>, uid: string, maxSeen: nat)
    requires 0 < maxSeen && |seen| <= maxSeen
    ensures Appended(seen, uid, maxSeen) == LastOf(seen + [uid], maxSeen)
  {
  }

  lemma LastOfLast(x: seq<string>, y: seq<string>, n: nat)
    ensures LastOf(LastOf(x, n) + y, n) == LastOf(x + y, n)
  {
  }

  /**
   The first poll of a platform hands out nothing and takes page 1 as processed, so
   the next poll of the same page makes one request and finds nothing new.
   */
  lemma FirstPollSeeds(q: Queue, feed: Feed, limits: Limits)
    requires q.seen == [] && feed(1).Some? && 0 < |feed(1).value| <= limits.maxSeen
    ensures var first := Polled(q, feed, limits);
            && first.result == Some(q.pending) && first.queue == q.(seen := Uids(feed(1).value))
            && var again := Polled(first.queue, feed, limits);
               again.result == Some(q.pending) && again.requests == 1 && again.queue == first.queue.(page := 2)
  {
    var items := feed(1).value;
    ExtendedKeepsNewest([], Uids(items), limits.maxSeen);
    assert [] + Uids(items) == Uids(items);
    SeenPageIsQuiet(q.(seen := Uids(items)), feed, limits);
  }

  /** A first page made of the window's own ids costs one request and brings nothing. */
  lemma SeenPageIsQuiet(q: Queue, feed: Feed, limits: Limits)
    requires limits.maxSeen > 0 && feed(1).Some? && feed(1).value != [] && q.seen == Uids(feed(1).value)
    ensures var poll := Polled(q, feed, limits);
            poll.result == Some(q.pending) && poll.requests == 1 && poll.queue == q.(page := 2)
  {
    var items := feed(1).value;
    forall p | p in items ensures p.uid in q.seen {
      var i :| 0 <= i < |items| && items[i] == p;
      assert q.seen[i] == p.uid;
    }
    NothingFresh(q.seen, UidSet(q.pending), items);
    assert FullySeen(items, q.seen) && q.pending + [] == q.pending;
  }

  // ---- the cap ----

  /** A poll asks the upstream for at most maxPages pages. */
  lemma RequestsBounded(q: Queue, feed: Feed, limits: Limits)
    requires limits.maxSeen > 0 && limits.maxPages > 0
    ensures 1 <= Polled(q, feed, limits).requests <= limits.maxPages
  {
    if feed(1).Some? && feed(1).value != [] && q.seen != [] && !FullySeen(feed(1).value, q.seen) {
      BrokenBounded(feed, q.seen, if q.page < 2 then 2 else q.page, 1, limits.maxPages);
    }
  }

  lemma {:induction false} BrokenBounded(feed: Feed, seen: seq<string>, page: nat, fetched: nat, maxPages: nat)
    requires fetched <= maxPages
    ensures fetched + WalkFrom(feed, seen, page, fetched, maxPages).requests <= maxPages
    decreases maxPages - fetched
  {
    if fetched < maxPages {
      BrokenBounded(feed, seen, page + 1, fetched + 1, maxPages);
    }
  }

  lemma {:induction false} CappedWalk(feed: Feed, seen: seq<string>, page: nat, fetched: nat, maxPages: nat)
    requires fetched <= maxPages
    requires var w := WalkFrom(feed, seen, page, fetched, maxPages); w.Walk? && w.capped
    ensures var w := WalkFrom(feed, seen, page, fetched, maxPages);
            && w.next == page + maxPages - fetched && |w.pages| == maxPages - fetched
            && forall i | 0 <= i < |w.pages| :: w.pages[i] == page + i
    decreases maxPages - fetched
  {
    if fetched < maxPages {
      CappedWalk(feed, seen, page + 1, fetched + 1, maxPages);
    }
  }

  function Walked(queues: seq<Queue>, feeds: seq<Feed>, limits: Limits): seq<nat>
    requires |queues| >= |feeds| && limits.maxSeen > 0
    decreases |feeds|
  {
    if feeds == [] then []
    else
      var n := |feeds| - 1;
      Walked(queues, feeds[..n], limits) + Polled(queues[n], feeds[n], limits).pages
  }

  /**
   Capped polls in a row, whatever is marked in between and whatever the feed
   shows, walk on from page 2 without a gap or a repeat.
   */
  lemma {:induction false} CappedPollsWalkOn(queues: seq<Queue>, feeds: seq<Feed>, limits: Limits)
    requires |queues| == |feeds| + 1 && limits.maxSeen > 0 && limits.maxPages > 0 && queues[0].page == 2
    requires forall i | 0 <= i < |feeds| :: Polled(queues[i], feeds[i], limits).capped
    requires forall i | 0 <= i < |feeds| :: queues[i + 1].page == Polled(queues[i], feeds[i], limits).queue.page
    ensures var walked := Walked(queues, feeds, limits);
            && |walked| == |feeds| * (limits.maxPages - 1)
            && queues[|feeds|].page == 2 + |walked|
            && forall i | 0 <= i < |walked| :: walked[i] == 2 + i
    decreases |feeds|
  {
    if feeds != [] {
      var n := |feeds| - 1;
      CappedPollsWalkOn(queues[..n + 1], feeds[..n], limits);
      WalkedPrefix(queues, feeds[..n], limits);
      CappedPoll(queues[n], feeds[n], limits);
      OneMoreTime(n, limits.maxPages - 1);
    }
  }

  lemma OneMoreTime(k: nat, m: nat)
    ensures (k + 1) * m == k * m + m
  {
  }

  lemma CappedPoll(q: Queue, feed: Feed, limits: Limits)
    requires limits.maxSeen > 0 && limits.maxPages > 0 && q.page >= 2 && Polled(q, feed, limits).capped
    ensures var poll := Polled(q, feed, limits);
            && |poll.pages| == limits.maxPages - 1 && poll.queue.page == q.page + |poll.pages|
            && forall i | 0 <= i < |poll.pages| :: poll.pages[i] == q.page + i
  {
    CappedWalk(feed, q.seen, q.page, 1, limits.maxPages);
  }

  lemma {:induction false} WalkedPrefix(queues: seq<Queue>, feeds: seq<Feed>, limits: Limits)
    requires |queues| > |feeds| && limits.maxSeen > 0
    ensures Walked(queues[..|feeds| + 1], feeds, limits) == Walked(queues, feeds, limits)
    decreases |feeds|
  {
    if feeds != [] {
      var n := |feeds| - 1;
      WalkedPrefix(queues, feeds[..n], limits);
      WalkedPrefix(queues[..|feeds| + 1], feeds[..n], limits);
      assert queues[..|feeds| + 1][..n + 1] == queues[..n + 1];
    }
  }

  /**
   A continuation page is used only while the first page shows something unseen;
   otherwise one request is made, the continuation is forgotten, and projects
   beyond it are not found however many there are.
   */
  lemma BackfillGoesOnIff(q: Queue, feed: Feed, limits: Limits)
    requires limits.maxSeen > 0 && limits.maxPages > 1 && q.seen != []
    requires feed(1).Some? && feed(1).value != []
    ensures var poll := Polled(q, feed, limits);
            && (poll.requests > 1 <==> exists p <- feed(1).value :: p.uid !in q.seen)
            && (poll.requests == 1 ==> poll.queue == q.(page := 2) && poll.result == Some(q.pending))
  {
    if FullySeen(feed(1).value, q.seen) {
      NothingFresh(q.seen, UidSet(q.pending), feed(1).value);
    }
  }

  lemma {:induction false} NothingFresh(seen: seq<string>, known: set<string>, items: seq<Project>)
    requires forall p <- items :: p.uid in seen
    ensures Fresh(seen, known, items) == []
    decreases |items|
  {
    if items != [] {
      assert items[|items| - 1] in items;
      NothingFresh(seen, known, items[..|items| - 1]);
    }
  }

  // ---- the hand-off, with crashes ----

  /** A crash between a poll's cursor write and its pending write, or between a mark's two writes. */
  datatype Event = PollDone(feed: Feed) | PollCut(feed: Feed) | MarkDone(p: Project) | MarkCut(p: Project)

  function Step(q: Queue, e: Event, limits: Limits): Queue
    requires limits.maxSeen > 0
  {
    match e
    case PollDone(feed) => Polled(q, feed, limits).queue
    case PollCut(feed) => Polled(q, feed, limits).queue.(pending := q.pending)
    case MarkDone(p) => Marked(q, p, limits)
    case MarkCut(p) => SeenWritten(q, p, limits)
  }

  function Run(q: Queue, events: seq<Event>, limits: Limits): Queue
    requires limits.maxSeen > 0
    decreases |events|
  {
    if events == [] then q
    else Step(Run(q, events[..|events| - 1], limits), events[|events| - 1], limits)
  }

  ghost predicate Sound(q: Queue, limits: Limits) {
    && DistinctUids(q.pending) && Named(q.pending) && |q.seen| <= limits.maxSeen && limits.maxSeen > 0
  }

  lemma {:induction false} FreshNew(seen: seq<string>, known: set<string>, items: seq<Project>)
    ensures forall p <- Fresh(seen, known, items) :: p.uid != "" && p.uid !in known && p.uid !in seen
    decreases |items|
  {
    if items != [] {
      var n := |items| - 1;
      FreshNew(seen, known, items[..n]);
      FreshNew(seen, known + {items[n].uid}, items[..n]);
    }
  }

  lemma {:induction false} FreshDistinct(seen: seq<string>, known: set<string>, items: seq<Project>)
    ensures DistinctUids(Fresh(seen, known, items))
    decreases |items|
  {
    if items != [] {
      var n := |items| - 1;
      var rest := Fresh(seen, known + {items[n].uid}, items[..n]);
      FreshDistinct(seen, known, items[..n]);
      FreshDistinct(seen, known + {items[n].uid}, items[..n]);
      FreshNew(seen, known + {items[n].uid}, items[..n]);
      assert forall j | 0 <= j < |rest| :: rest[j] in rest;
    }
  }

  lemma DeliveredSound(q: Queue, items: seq<Project>, limits: Limits)
    requires Sound(q, limits)
    ensures var found := Found(q, items);
            DistinctUids(q.pending + found) && Named(q.pending + found)
  {
    FreshNew(q.seen, UidSet(q.pending), items);
    FreshDistinct(q.seen, UidSet(q.pending), items);
    var found := Found(q, items);
    assert forall i | 0 <= i < |q.pending| :: q.pending[i] in q.pending;
    forall i, j | 0 <= i < |q.pending| && 0 <= j < |found| ensures q.pending[i].uid != found[j].uid {
      assert q.pending[i].uid in UidSet(q.pending) && found[j] in found;
    }
  }

  /** A poll that succeeds returns exactly what is then pending, and drops nothing that was. */
  lemma PollReturnsPending(q: Queue, feed: Feed, limits: Limits)
    requires Sound(q, limits)
    ensures var poll := Polled(q, feed, limits);
            && Sound(poll.queue, limits)
            && |q.pending| <= |poll.queue.pending| && poll.queue.pending[..|q.pending|] == q.pending
            && (poll.result.Some? ==> poll.result.value == poll.queue.pending)
            && (poll.result.None? ==> poll.queue == q)
  {
    if feed(1).Some? && feed(1).value != [] && q.seen != [] {
      var first := feed(1).value;
      DeliveredSound(q, first, limits);
      var w := WalkFrom(feed, q.seen, if q.page < 2 then 2 else q.page, 1, limits.maxPages);
      if w.Walk? {
        DeliveredSound(q, first + w.items, limits);
      }
    }
  }

  lemma {:induction false} WithoutSound(pending: seq<Project>, uid: string)
    requires DistinctUids(pending) && Named(pending)
    ensures DistinctUids(Without(pending, uid)) && Named(Without(pending, uid))
  {
    if pending != [] {
      assert pending == [pending[0]] + pending[1..];
      WithoutSound(pending[1..], uid);
      var rest := Without(pending[1..], uid);
      forall j | 0 <= j < |rest| ensures rest[j].uid != pending[0].uid {
        assert rest[j] in pending[1..];
      }
    }
  }

  lemma StepSound(q: Queue, e: Event, limits: Limits)
    requires Sound(q, limits)
    ensures Sound(Step(q, e, limits), limits)
    ensures forall p <- q.pending :: (e.MarkDone? && e.p.uid == p.uid) || p in Step(q, e, limits).pending
  {
    match e
    case PollDone(feed) =>
      PollReturnsPending(q, feed, limits);
      var after := Polled(q, feed, limits).queue.pending;
      assert after == after[..|q.pending|] + after[|q.pending|..];
    case PollCut(feed) => PollReturnsPending(q, feed, limits);
    case MarkDone(p) => WithoutSound(q.pending, p.uid);
    case MarkCut(_) =>
  }

  /**
   Main result: whatever polls, marks and crashes follow, a pending project stays
   pending, once, and every poll that succeeds returns it, until its own mark is
   written in full.
   */
  lemma {:induction false} StaysUntilMarked(q: Queue, p: Project, events: seq<Event>, limits: Limits)
    requires Sound(q, limits) && p in q.pending
    requires forall e <- events :: e.MarkDone? ==> e.p.uid != p.uid
    ensures var end := Run(q, events, limits);
            && Sound(end, limits) && p in end.pending
            && forall feed: Feed :: Polled(end, feed, limits).result.Some?
                ==> p in Polled(end, feed, limits).result.value
    decreases |events|
  {
    if events != [] {
      var n := |events| - 1;
      assert forall e :: e in events[..n] ==> e in events;
      assert events[n] in events;
      StaysUntilMarked(q, p, events[..n], limits);
      StepSound(Run(q, events[..n], limits), events[n], limits);
    }
    var end := Run(q, events, limits);
    forall feed: Feed | Polled(end, feed, limits).result.Some?
      ensures p in Polled(end, feed, limits).result.value
    {
      PollReturnsPending(end, feed, limits);
      var after := Polled(end, feed, limits).queue.pending;
      assert after == after[..|end.pending|] + after[|end.pending|..];
    }
  }

  /**
   A crash between a poll's two writes: the next poll of the same feed makes the
   same walk again, with the same outcome, exactly when the first does not meet
   the cap. After a capped walk the cursor is already past what was found and not
   yet written.
   */
  lemma CutRepeatsIffUncapped(q: Queue, feed: Feed, limits: Limits)
    requires limits.maxSeen > 0 && limits.maxPages > 1 && q.seen != [] && q.page == 2
    ensures var poll, again := Polled(q, feed, limits), Polled(Step(q, PollCut(feed), limits), feed, limits);
            && (again.pages == poll.pages <==> !MeetsCap(q, feed, limits))
            && (!MeetsCap(q, feed, limits) ==> again == poll)
            && (MeetsCap(q, feed, limits) ==>
                  forall i, j | 0 <= i < |poll.pages| && 0 <= j < |again.pages| :: poll.pages[i] < again.pages[j])
  {
    PollCappedIff(q, feed, limits);
    var poll := Polled(q, feed, limits);
    if poll.capped {
      CappedWalk(feed, q.seen, 2, 1, limits.maxPages);
      var cut := Step(q, PollCut(feed), limits);
      assert cut.page == 2 + |poll.pages| && cut.seen == q.seen;
      PagesInRow(feed, q.seen, cut.page, 1, limits.maxPages);
      assert poll.pages[0] == 2;
    } else if poll.result.Some? && feed(1).value != [] && !FullySeen(feed(1).value, q.seen) {
      UncappedEndsAtTwo(feed, q.seen, 2, 1, limits.maxPages);
    }
  }

  function ThreePages(k: nat): Option<seq<Project>> {
    Some(if k == 1 then [Project("c", 0)] else if k == 2 then [Project("b", 0)] else if k == 3 then [Project("a", 0)]
        else [])
  }

  /** A capped poll finds the project on page 2; cut short, the next poll starts at page 3 and does not deliver it. */
  lemma CappedCutSkips()
    ensures var q, limits := Queue(["z"], [], 2), Limits(2, 500);
            var lost := Project("b", 0);
            && MeetsCap(q, ThreePages, limits)
            && lost in Polled(q, ThreePages, limits).result.value
            && var again := Polled(Step(q, PollCut(ThreePages), limits), ThreePages, limits);
               again.result.Some? && lost !in again.result.value && lost.uid !in again.queue.seen
  {
    var q, limits := Queue(["z"], [], 2), Limits(2, 500);
    ThreePagesWalk(2);
    ThreePagesWalk(3);
    PollCappedIff(q, ThreePages, limits);
    var c, b, a := Project("c", 0), Project("b", 0), Project("a", 0);
    TwoFresh(c, b);
    TwoFresh(c, a);
    var poll := Polled(q, ThreePages, limits);
    assert poll == Delivered(q.(page := 3), [c] + [b], 2, true, [2]);
    var cut := Step(q, PollCut(ThreePages), limits);
    assert cut == q.(page := 3);
    assert Polled(cut, ThreePages, limits) == Delivered(q.(page := 4), [c] + [a], 2, true, [3]);
  }

  lemma ThreePagesWalk(page: nat)
    requires page == 2 || page == 3
    ensures WalkFrom(ThreePages, ["z"], page, 1, 2) == Walk(ThreePages(page).value, [page], page + 1, true, 1)
  {
    assert WalkFrom(ThreePages, ["z"], page + 1, 2, 2) == Walk([], [], page + 1, true, 0);
    assert !FullySeen(ThreePages(page).value, ["z"]) by {
      assert ThreePages(page).value[0] in ThreePages(page).value;
    }
  }

  lemma TwoFresh(first: Project, second: Project)
    requires first.uid != second.uid && first.uid !in ["", "z"] && second.uid !in ["", "z"]
    ensures Fresh(["z"], UidSet([]), [first] + [second]) == [second, first]
  {
    assert ([first] + [second])[..1] == [first];
    assert Fresh(["z"], UidSet([]) + {second.uid}, [first])
        == [first] + Fresh(["z"], UidSet([]) + {second.uid} + {first.uid}, []);
  }

  lemma {:induction false} PagesInRow(feed: Feed, seen: seq<string>, page: nat, fetched: nat, maxPages: nat)
    ensures var w := WalkFrom(feed, seen, page, fetched, maxPages);
            w.Walk? ==> forall i | 0 <= i < |w.pages| :: w.pages[i] == page + i
    decreases maxPages - fetched
  {
    if fetched < maxPages {
      PagesInRow(feed, seen, page + 1, fetched + 1, maxPages);
      var w, rest := WalkFrom(feed, seen, page, fetched, maxPages),
          WalkFrom(feed, seen, page + 1, fetched + 1, maxPages);
      if w.Walk? && w.pages != [] {
        assert w.pages == [page] || (rest.Walk? && w.pages == [page] + rest.pages);
      }
    }
  }

  // ---- processed projects stay away ----

  function Marks(events: seq<Event>): nat {
    if events == [] then 0
    else Marks(events[..|events| - 1]) + if events[|events| - 1].MarkDone? || events[|events| - 1].MarkCut? then 1
        else 0
  }

  /** The id is in the window with at most 'age' ids after it, and the project is not pending. */
  ghost predicate Retired(q: Queue, uid: string, age: nat) {
    (exists i :: 0 <= i < |q.seen| && q.seen[i] == uid && |q.seen| - 1 - i <= age) && forall p <- q.pending ::
        p.uid != uid
  }

  lemma AppendedKeeps(seen: seq<string>, uid: string, other: string, age: nat, maxSeen: nat)
    requires |seen| <= maxSeen && age + 1 < maxSeen
    requires exists i :: 0 <= i < |seen| && seen[i] == uid && |seen| - 1 - i <= age
    ensures var r := Appended(seen, other, maxSeen);
            exists i :: 0 <= i < |r| && r[i] == uid && |r| - 1 - i <= age + 1
  {
    var r := Appended(seen, other, maxSeen);
    var i :| 0 <= i < |seen| && seen[i] == uid && |seen| - 1 - i <= age;
    var j := i + |r| - |seen| - 1;
    assert r[j] == uid;
  }

  lemma RetiredStep(q: Queue, e: Event, uid: string, age: nat, limits: Limits)
    requires Sound(q, limits) && Retired(q, uid, age)
    requires age + (if e.MarkDone? || e.MarkCut? then 1 else 0) < limits.maxSeen
    ensures Retired(Step(q, e, limits), uid, age + if e.MarkDone? || e.MarkCut? then 1 else 0)
  {
    match e
    case PollDone(feed) => RetiredPoll(q, feed, uid, age, limits);
    case PollCut(feed) => RetiredPoll(q, feed, uid, age, limits);
    case MarkDone(p) =>
      if p.uid != "" && p.uid !in q.seen {
        AppendedKeeps(q.seen, uid, p.uid, age, limits.maxSeen);
      }
    case MarkCut(p) =>
      if p.uid != "" && p.uid !in q.seen {
        AppendedKeeps(q.seen, uid, p.uid, age, limits.maxSeen);
      }
  }

  lemma RetiredPoll(q: Queue, feed: Feed, uid: string, age: nat, limits: Limits)
    requires Sound(q, limits) && Retired(q, uid, age)
    ensures Retired(Polled(q, feed, limits).queue, uid, age)
        && Retired(Polled(q, feed, limits).queue.(pending := q.pending), uid, age)
  {
    if feed(1).Some? && feed(1).value != [] {
      var first := feed(1).value;
      FreshNew(q.seen, UidSet(q.pending), first);
      var w := WalkFrom(feed, q.seen, if q.page < 2 then 2 else q.page, 1, limits.maxPages);
      if w.Walk? {
        FreshNew(q.seen, UidSet(q.pending), first + w.items);
      }
    }
  }

  /** How many ids came into the window after this one. */
  function Age(seen: seq<string>, uid: string): nat {
    if seen == [] || seen[|seen| - 1] == uid then 0 else 1 + Age(seen[..|seen| - 1], uid)
  }

  lemma {:induction false} AgeMeans(seen: seq<string>, uid: string)
    requires uid in seen
    ensures Age(seen, uid) < |seen| && seen[|seen| - 1 - Age(seen, uid)] == uid
  {
    var n := |seen| - 1;
    if seen[n] != uid {
      assert seen == seen[..n] + [seen[n]];
      AgeMeans(seen[..n], uid);
    }
  }

  lemma MarkedIsRetired(q: Queue, p: Project, limits: Limits)
    requires Sound(q, limits) && p.uid != ""
    ensures Retired(Marked(q, p, limits), p.uid, if p.uid in q.seen then Age(q.seen, p.uid) else 0)
  {
    var seen := Marked(q, p, limits).seen;
    if p.uid in q.seen {
      AgeMeans(q.seen, p.uid);
    } else {
      assert seen[|seen| - 1] == p.uid;
    }
  }

  /**
   A project marked in full, be it again after a mark cut short, is not handed out
   again as long as its place in the window is not pushed out by later marks.
   */
  lemma {:induction false} NotRepeatedInWindow(q: Queue, p: Project, events: seq<Event>, limits: Limits)
    requires Sound(q, limits) && p.uid != ""
    requires (if p.uid in q.seen then Age(q.seen, p.uid) else 0) + Marks(events) < limits.maxSeen
    ensures var age := if p.uid in q.seen then Age(q.seen, p.uid) else 0;
            var end := Run(Marked(q, p, limits), events, limits);
            Sound(end, limits) && Retired(end, p.uid, age + Marks(events))
    decreases |events|
  {
    var age := if p.uid in q.seen then Age(q.seen, p.uid) else 0;
    StepSound(q, MarkDone(p), limits);
    if events == [] {
      MarkedIsRetired(q, p, limits);
    } else {
      var n := |events| - 1;
      NotRepeatedInWindow(q, p, events[..n], limits);
      var before := Run(Marked(q, p, limits), events[..n], limits);
      StepSound(before, events[n], limits);
      RetiredStep(before, events[n], p.uid, age + Marks(events[..n]), limits);
    }
  }
}
