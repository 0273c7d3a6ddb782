/** What every run of the channel protocol keeps, and what breaks without its premises. */
module ChannelSafety {
  import opened Options
  import opened ChannelProtocol

  // ---- reading the next batch ----

  lemma {:induction false} NewerIsFilter(history: seq<int>, watermark: int)
    requires Ascending(history)
    ensures Ascending(Newer(history, watermark))
    ensures forall id :: id in Newer(history, watermark) <==> id in history && id > watermark
  {
    if history != [] {
      NewerIsFilter(history[1..], watermark);
      var rest := Newer(history[1..], watermark);
      assert history == [history[0]] + history[1..];
      forall i | 0 <= i < |rest| ensures history[0] < rest[i] {
        assert rest[i] in rest;
        var j :| 0 <= j < |history[1..]| && history[1..][j] == rest[i];
        assert history[j + 1] == rest[i];
      }
    }
  }

  /** A batch holds the oldest messages after the watermark; if it is short, all of them. */
  lemma {:induction false} BatchCovers(history: seq<int>, watermark: int, max: nat)
    requires Ascending(history)
    ensures var batch := Batch(history, watermark, max);
            && |batch| <= max
            && Ascending(batch)
            && (forall id <- batch :: id in history && id > watermark)
            && (forall id <- history :: id > watermark ==>
                  id in batch || (|batch| == max && forall b <- batch :: b < id))
  {
    NewerIsFilter(history, watermark);
    var newer := Newer(history, watermark);
    if |newer| > max {
      assert newer == newer[..max] + newer[max..];
    }
  }

  // ---- one step ----

  /** Every pending message older than 'id' is already processed. */
  ghost predicate OlderPendingProcessed(w0: int, s: State, id: int) {
    forall p <- s.pending :: w0 < p < id ==> p in s.processed
  }

  /** What must hold where the code writes a live message's id or lets its failure go. */
  ghost predicate StepGuard(w0: int, s: State, e: Event) {
    && ((e.LiveCommit? || e.LiveCommitRaised?) && s.holder.Live? && !s.blocked ==>
          OlderPendingProcessed(w0, s, s.holder.id))
    && (e.LiveLost? && s.holder.Live? && !s.blocked ==>
          s.holder.id <= w0 || s.holder.id in s.processed)
  }

  lemma AppendAscending(ids: seq<int>, id: int)
    requires Ascending(ids) && forall h <- ids :: h < id
    ensures Ascending(ids + [id])
  {
    assert forall i | 0 <= i < |ids| :: ids[i] in ids;
  }

  lemma RemoveAscending(ids: seq<int>, i: nat)
    requires Ascending(ids) && i < |ids|
    ensures var rest := ids[..i] + ids[i + 1..];
            Ascending(rest) && forall id :: id in rest <==> id in ids && id != ids[i]
  {
    var rest := ids[..i] + ids[i + 1..];
    assert ids == ids[..i] + [ids[i]] + ids[i + 1..];
    forall id | id in rest ensures id != ids[i] {
      var j :| 0 <= j < |rest| && rest[j] == id;
      assert id == if j < i then ids[j] else ids[j + 1];
    }
  }

  lemma PostKeepsInv(w0: int, max: nat, s: State, id: int)
    requires Inv(w0, max, s) && Effect(max, s, Post(id)).Some?
    ensures Inv(w0, max, Apply(max, s, Post(id)).value)
  {
    var s' := Apply(max, s, Post(id)).value;
    PostKeepsQueue(max, s, id);
    PostKeepsPass(w0, max, s, id);
    forall h <- s'.history | w0 < h && (h <= s'.watermark || h <= s'.saved) ensures h in s'.processed {
      assert h in s.history || h == id;
    }
    if !s.blocked {
      PostKeepsCaughtUp(w0, max, s, id);
    }
  }

  lemma PostIsNewest(max: nat, s: State, id: int)
    requires QueueInv(s) && Effect(max, s, Post(id)).Some?
    ensures forall h <- s.history :: h < id
    ensures forall h :: h in s.history + [id] <==> h in s.history || h == id
  {
    assert forall i | 0 <= i < |s.history| :: s.history[i] <= s.history[|s.history| - 1];
  }

  lemma PostKeepsQueue(max: nat, s: State, id: int)
    requires QueueInv(s) && Effect(max, s, Post(id)).Some?
    ensures QueueInv(Apply(max, s, Post(id)).value)
  {
    PostIsNewest(max, s, id);
    AppendAscending(s.history, id);
    AppendAscending(s.pending, id);
  }

  lemma PostKeepsCaughtUp(w0: int, max: nat, s: State, id: int)
    requires QueueInv(s) && s.connected && CaughtUp(w0, s) && Effect(max, s, Post(id)).Some?
    ensures CaughtUp(w0, Apply(max, s, Post(id)).value)
  {
    PostIsNewest(max, s, id);
    var s' := Apply(max, s, Post(id)).value;
    assert id in s'.pending && forall p <- s.pending :: p in s'.pending;
    forall h <- s'.history | w0 < h && h !in s'.processed ensures InFlight(s', h) {
      assert h != id ==> InFlight(s, h);
    }
  }

  lemma PostKeepsPass(w0: int, max: nat, s: State, id: int)
    requires QueueInv(s) && PassInv(w0, max, s) && Effect(max, s, Post(id)).Some?
    ensures PassInv(w0, max, Apply(max, s, Post(id)).value)
  {
    PostIsNewest(max, s, id);
    var s' := Apply(max, s, Post(id)).value;
    if HasPass(s) && PassOf(s).Finished? && PassOf(s).verdict == Complete {
      PostKeepsCaughtUp(w0, max, s, id);
    } else if HasPass(s) && PassOf(s).Walking? {
      assert id in s'.pending && forall p <- s.pending :: p in s'.pending;
      assert WalkCovers(w0, max, s, PassOf(s));
      assert WalkCovers(w0, max, s', PassOf(s));
    }
  }

  lemma FetchKeepsInv(w0: int, max: nat, s: State)
    requires Inv(w0, max, s) && Effect(max, s, Fetch).Some?
    ensures Inv(w0, max, Apply(max, s, Fetch).value)
  {
    var batch := Batch(s.history, s.watermark, max);
    BatchCovers(s.history, s.watermark, max);
    assert batch[0..] == batch;
  }

  lemma ConfirmKeepsInv(w0: int, max: nat, s: State)
    requires Inv(w0, max, s) && Effect(max, s, Confirm).Some?
    ensures Inv(w0, max, Apply(max, s, Confirm).value)
  {
    var Walking(batch, next, _) := PassOf(s);
    var s' := Apply(max, s, Confirm).value;
    assert WalkCovers(w0, max, s', PassOf(s'));
  }

  /** Passing a confirmed message: nothing unprocessed is at or below it. */
  lemma ConfirmedIsReached(w0: int, max: nat, s: State)
    requires Inv(w0, max, s) && HasPass(s) && PassOf(s).Walking? && PassOf(s).confirmed
    ensures var Walking(batch, next, _) := PassOf(s);
            && batch[next] in s.history
            && forall id <- s.history :: w0 < id && id !in s.processed ==> batch[next] < id
  {
    var Walking(batch, next, _) := PassOf(s);
    assert batch[next] in batch;
    forall id <- s.history | w0 < id && id !in s.processed
      ensures batch[next] < id
    {
      if id in batch[next..] {
        var j :| next <= j < |batch| && batch[j] == id;
        assert j != next;
      }
    }
  }

  lemma AdvanceKeepsInv(w0: int, max: nat, s: State)
    requires Inv(w0, max, s) && Effect(max, s, Advance).Some?
    ensures Inv(w0, max, Apply(max, s, Advance).value)
  {
    ConfirmedIsReached(w0, max, s);
    var Walking(batch, next, _) := PassOf(s);
    assert batch[next..] == [batch[next]] + batch[next + 1..];
    var s' := Apply(max, s, Advance).value;
    assert Safe(w0, s');
    assert WalkCovers(w0, max, s', PassOf(s'));
  }

  lemma AdvanceRaisedKeepsInv(w0: int, max: nat, s: State, reached: bool)
    requires Inv(w0, max, s) && Effect(max, s, AdvanceRaised(reached)).Some?
    ensures Inv(w0, max, Apply(max, s, AdvanceRaised(reached)).value)
  {
    ConfirmedIsReached(w0, max, s);
    assert Safe(w0, Apply(max, s, AdvanceRaised(reached)).value);
  }

  lemma ConcludeKeepsInv(w0: int, max: nat, s: State)
    requires Inv(w0, max, s) && Effect(max, s, Conclude).Some?
    ensures Inv(w0, max, Apply(max, s, Conclude).value)
  {
    var Walking(batch, next, _) := PassOf(s);
    assert batch[next..] == [];
  }

  lemma AcquireKeepsInv(w0: int, max: nat, s: State, i: nat)
    requires Inv(w0, max, s) && Effect(max, s, LiveAcquire(i)).Some?
    ensures Inv(w0, max, Apply(max, s, LiveAcquire(i)).value)
  {
    RemoveAscending(s.pending, i);
  }

  lemma LiveConfirmKeepsInv(w0: int, max: nat, s: State)
    requires Inv(w0, max, s) && Effect(max, s, LiveConfirm).Some?
    ensures Inv(w0, max, Apply(max, s, LiveConfirm).value)
  {
  }

  /** The handler lets the lock go with its message processed, the barrier up, or both. */
  lemma LiveReleaseKeepsInv(w0: int, max: nat, s: State, e: Event)
    requires Inv(w0, max, s) && StepGuard(w0, s, e) && Effect(max, s, e).Some?
    requires e.LiveRefuse? || e.LiveLost?
    ensures Inv(w0, max, Apply(max, s, e).value)
  {
  }

  lemma LiveCommitKeepsInv(w0: int, max: nat, s: State, e: Event)
    requires Inv(w0, max, s) && StepGuard(w0, s, e) && Effect(max, s, e).Some?
    requires e.LiveCommit? || e.LiveCommitRaised?
    ensures Inv(w0, max, Apply(max, s, e).value)
  {
    var s' := Apply(max, s, e).value;
    assert Safe(w0, s') by {
      if !s.blocked {
        forall id <- s.history | w0 < id && id <= s.holder.id ensures id in s.processed {
          assert id in s.processed || InFlight(s, id);
        }
      }
    }
  }

  lemma WatchLockKeepsInv(w0: int, max: nat, s: State)
    requires Inv(w0, max, s) && Effect(max, s, WatchLock).Some?
    ensures Inv(w0, max, Apply(max, s, WatchLock).value)
  {
  }

  lemma WatchKeepsInv(w0: int, max: nat, s: State, e: Event)
    requires Inv(w0, max, s) && Effect(max, s, e).Some?
    requires e.WatchStart? || e.WatchLook? || e.WatchUnpark? || e.WatchElapse?
    ensures Inv(w0, max, Apply(max, s, e).value)
  {
    var s' := Apply(max, s, e).value;
    assert s'.holder == s.holder && s'.blocked == s.blocked && WatcherInv(s');
  }

  lemma ConnectKeepsInv(w0: int, max: nat, s: State)
    requires Inv(w0, max, s) && Effect(max, s, Connect).Some?
    ensures Inv(w0, max, Apply(max, s, Connect).value)
  {
  }

  lemma LossKeepsInv(w0: int, max: nat, s: State, e: Event)
    requires Inv(w0, max, s) && ConnectionLost(e)
    ensures Inv(w0, max, Apply(max, s, e).value)
  {
  }

  lemma FlushKeepsInv(w0: int, max: nat, s: State)
    requires Inv(w0, max, s)
    ensures Inv(w0, max, Apply(max, s, Flush).value)
  {
    if HasPass(s) && PassOf(s).Walking? {
      assert WalkCovers(w0, max, Apply(max, s, Flush).value, PassOf(s));
    }
  }

  lemma PassFailsKeepsInv(w0: int, max: nat, s: State, e: Event)
    requires Inv(w0, max, s) && Effect(max, s, e).Some?
    requires e.FetchRaised? || e.Refuse?
    ensures Inv(w0, max, Apply(max, s, e).value)
  {
  }

  lemma PassEndKeepsInv(w0: int, max: nat, s: State, e: Event)
    requires Inv(w0, max, s) && Effect(max, s, e).Some?
    requires e.AuditRaised? || e.EndPass?
    ensures Inv(w0, max, Apply(max, s, e).value)
  {
  }

  /** Every enabled step keeps the invariant, as long as its guard holds. */
  lemma StepKeepsInv(w0: int, max: nat, s: State, e: Event)
    requires Inv(w0, max, s) && Apply(max, s, e).Some?
    requires StepGuard(w0, s, e)
    ensures Inv(w0, max, Apply(max, s, e).value)
  {
    match e {
      case Post(id) => PostKeepsInv(w0, max, s, id);
      case Connect => ConnectKeepsInv(w0, max, s);
      case Crash => LossKeepsInv(w0, max, s, e);
      case Disconnect => LossKeepsInv(w0, max, s, e);
      case Flush => FlushKeepsInv(w0, max, s);
      case Fetch => FetchKeepsInv(w0, max, s);
      case FetchRaised => PassFailsKeepsInv(w0, max, s, e);
      case AuditRaised => PassEndKeepsInv(w0, max, s, e);
      case EndPass => PassEndKeepsInv(w0, max, s, e);
      case Refuse => PassFailsKeepsInv(w0, max, s, e);
      case Confirm => ConfirmKeepsInv(w0, max, s);
      case Advance => AdvanceKeepsInv(w0, max, s);
      case AdvanceRaised(reached) => AdvanceRaisedKeepsInv(w0, max, s, reached);
      case Conclude => ConcludeKeepsInv(w0, max, s);
      case LiveAcquire(i) => AcquireKeepsInv(w0, max, s, i);
      case LiveConfirm => LiveConfirmKeepsInv(w0, max, s);
      case LiveRefuse => LiveReleaseKeepsInv(w0, max, s, e);
      case LiveLost => LiveReleaseKeepsInv(w0, max, s, e);
      case LiveCommit => LiveCommitKeepsInv(w0, max, s, e);
      case LiveCommitRaised(_) => LiveCommitKeepsInv(w0, max, s, e);
      case WatchStart => WatchKeepsInv(w0, max, s, e);
      case WatchLook => WatchKeepsInv(w0, max, s, e);
      case WatchUnpark => WatchKeepsInv(w0, max, s, e);
      case WatchElapse => WatchKeepsInv(w0, max, s, e);
      case WatchLock => WatchLockKeepsInv(w0, max, s);
    }
  }

  // ---- all runs ----

  lemma StepKeepsOrder(w0: int, max: nat, s: State, e: Event)
    requires Inv(w0, max, s) && InOrder(s) && Apply(max, s, e).Some?
    requires WellBehaved([e])
    ensures StepGuard(w0, s, e)
    ensures InOrder(Apply(max, s, e).value)
  {
    assert e in [e];
    if e.Post? {
      PostKeepsOrder(max, s, e.id);
    } else if e.LiveAcquire? {
      RemoveAscending(s.pending, e.index);
    } else {
      OthersKeepOrder(max, s, e);
    }
  }

  lemma OthersKeepOrder(max: nat, s: State, e: Event)
    requires QueueInv(s) && InOrder(s) && !e.Post? && !e.LiveAcquire? && Apply(max, s, e).Some?
    ensures InOrder(Apply(max, s, e).value)
  {
  }

  lemma PostKeepsOrder(max: nat, s: State, id: int)
    requires QueueInv(s) && InOrder(s) && Apply(max, s, Post(id)).Some?
    ensures InOrder(Apply(max, s, Post(id)).value)
  {
    assert forall i | 0 <= i < |s.history| :: s.history[i] <= s.history[|s.history| - 1];
  }

  /** Main result: no interleaving, failure or restart moves the watermark past an unprocessed message. */
  lemma {:induction false} SafetyOverAllRuns(w0: int, max: nat, states: seq<State>, es: seq<Event>)
    requires Path(max, states, es) && WellBehaved(es)
    requires Inv(w0, max, states[0]) && InOrder(states[0])
    ensures forall s <- states :: Safe(w0, s) && Inv(w0, max, s) && InOrder(s)
  {
    if es == [] {
      assert states == [states[0]];
    } else {
      var n := |es| - 1;
      SafetyOverAllRuns(w0, max, states[..n + 1], es[..n]);
      assert states[n] in states[..n + 1] && es[n] in es;
      assert Apply(max, states[n], es[n]) == Some(states[n + 1]);
      StepKeepsOrder(w0, max, states[n], es[n]);
      StepKeepsInv(w0, max, states[n], es[n]);
      assert states == states[..n + 1] + [states[n + 1]];
    }
  }

  lemma JoinPaths(max: nat, p: seq<State>, es: seq<Event>, q: seq<State>, fs: seq<Event>)
    requires Path(max, p, es) && Path(max, q, fs) && p[|es|] == q[0]
    ensures Path(max, p + q[1..], es + fs)
    ensures (p + q[1..])[0] == p[0] && (p + q[1..])[|es| + |fs|] == q[|fs|]
  {
    var r := p + q[1..];
    forall i | 0 <= i < |es| + |fs|
      ensures Apply(max, r[i], (es + fs)[i]) == Some(r[i + 1])
    {
      if i >= |es| {
        assert r[i] == q[i - |es|] && r[i + 1] == q[i - |es| + 1];
      }
    }
  }

  // ---- the premises are needed, and exactly when ----

  /** Writing a live message's id is safe exactly when no older handler still waits with unfinished work. */
  lemma CommitSafeIff(w0: int, max: nat, s: State)
    requires Inv(w0, max, s) && s.holder.Live? && s.holder.confirmed && !s.blocked
    ensures Apply(max, s, LiveCommit).Some?
    ensures Safe(w0, Apply(max, s, LiveCommit).value) <==> OlderPendingProcessed(w0, s, s.holder.id)
  {
    var s' := Apply(max, s, LiveCommit).value;
    var id := s.holder.id;
    if Safe(w0, s') {
      forall p <- s.pending | w0 < p < id ensures p in s.processed {
        assert p in s'.history;
      }
    }
  }

  /** No run that starts here, under the premises, ends with a skipped message. */
  ghost predicate SafeFromHere(w0: int, max: nat, s: State) {
    forall states, es | Path(max, states, es) :: states[0] == s && WellBehaved(es) ==> Safe(w0, states[|es|])
  }

  lemma InvMeansSafeFromHere(w0: int, max: nat, s: State)
    requires Inv(w0, max, s) && InOrder(s)
    ensures SafeFromHere(w0, max, s)
  {
    forall states, es | Path(max, states, es) && states[0] == s && WellBehaved(es)
      ensures Safe(w0, states[|es|])
    {
      SafetyOverAllRuns(w0, max, states, es);
    }
  }

  lemma NoMessageSkipped(w0: int, max: nat, s: State)
    requires Initial(s, w0) && w0 > 0
    ensures SafeFromHere(w0, max, s)
  {
    InvMeansSafeFromHere(w0, max, s);
  }

  /** The oldest pending handler runs, succeeds and writes its id. */
  lemma FrontSucceeds(max: nat, s: State) returns (states: seq<State>, es: seq<Event>)
    requires s.connected && s.holder.Free? && !s.blocked && s.pending != []
    ensures Path(max, states, es) && WellBehaved(es) && states[0] == s
    ensures var end := states[|es|];
            && end.history == s.history && end.watermark == s.pending[0]
            && end.processed == s.processed + {s.pending[0]}
  {
    var id := s.pending[0];
    var s1 := s.(holder := Live(id, false), pending := s.pending[..0] + s.pending[1..], clock := s.clock + 1);
    var s2 := s1.(holder := Live(id, true), processed := s.processed + {id}, clock := s1.clock + 1);
    var s3 := s2.(holder := Free, watermark := id, saved := id, clock := s2.clock + 1);
    states, es := [s, s1, s2, s3], [LiveAcquire(0), LiveConfirm, LiveCommit];
  }

  lemma PostNext(max: nat, s: State) returns (s': State)
    requires QueueInv(s) && s.connected && s.pending == []
    ensures exists id :: Path(max, [s, s'], [Post(id)])
    ensures s' == s.(history := s'.history, pending := s'.pending, clock := s.clock + 1)
    ensures s'.pending != [] && forall id <- s.history :: id in s'.history && id < s'.pending[0]
  {
    var id := if s.history == [] then 1 else s.history[|s.history| - 1] + 1;
    assert forall i | 0 <= i < |s.history| :: s.history[i] in s.history && s.history[i] <= s.history[|s.history| - 1];
    s' := s.(history := s.history + [id], pending := s.pending + [id], clock := s.clock + 1);
    assert Path(max, [s, s'], [Post(id)]);
  }

  /** With the barrier down, an unprocessed message without a handler is lost by the next success. */
  lemma NextSuccessSkips(w0: int, max: nat, s: State, id: int)
    requires QueueInv(s) && s.connected && s.holder.Free? && !s.blocked
    requires id in s.history && forall p <- s.pending :: id < p
    requires w0 < id && id !in s.processed
    ensures !SafeFromHere(w0, max, s)
  {
    if s.pending == [] {
      var s0 := PostNext(max, s);
      var post :| Path(max, [s, s0], [Post(post)]);
      var states, es := FrontSucceeds(max, s0);
      JoinPaths(max, [s, s0], [Post(post)], states, es);
      var all := [s, s0] + states[1..];
      assert all[0] == s && WellBehaved([Post(post)] + es) && !Safe(w0, all[|[Post(post)] + es|]);
    } else {
      var states, es := FrontSucceeds(max, s);
      assert s.pending[0] in s.pending;
      assert !Safe(w0, states[|es|]);
    }
  }

  /**
   A live failure whose error log raises too leaves the barrier down
   (app/adapters/sources/telegram.py:627-639). That is harmless exactly when the
   barrier was already up or the message had been processed before.
   */
  lemma LostFailureHarmlessIff(w0: int, max: nat, s: State)
    requires Inv(w0, max, s) && InOrder(s)
    requires s.holder.Live? && !s.holder.confirmed
    ensures Apply(max, s, LiveLost).Some?
    ensures SafeFromHere(w0, max, Apply(max, s, LiveLost).value) <==>
            s.blocked || s.holder.id <= w0 || s.holder.id in s.processed
  {
    var s' := Apply(max, s, LiveLost).value;
    var id := s.holder.id;
    if s.blocked || id <= w0 || id in s.processed {
      StepKeepsInv(w0, max, s, LiveLost);
      InvMeansSafeFromHere(w0, max, s');
    } else {
      NextSuccessSkips(w0, max, s', id);
    }
  }

  // A channel first tracked while it is empty: startup finds nothing to seed from,
  // its first message fails, and the retry pass seeds the watermark past it.

  lemma EmptyStartup(max: nat, s: State) returns (states: seq<State>, es: seq<Event>)
    requires Initial(s, 0) && s.history == []
    ensures Path(max, states, es) && WellBehaved(es) && states[0] == s
    ensures states[|es|] ==
            s.(connected := true, blocked := false, generation := 0, wake := false, clock := s.clock + 3)
  {
    var s1 := s.(connected := true, holder := Startup(Fetching), generation := 0, wake := false, clock := s.clock + 1);
    var s2 := s1.(holder := Startup(Finished(Complete)), clock := s.clock + 2);
    var s3 := s2.(holder := Free, blocked := false, clock := s.clock + 3);
    states, es := [s, s1, s2, s3], [Connect, Fetch, EndPass];
  }

  lemma FirstMessageFails(max: nat, s: State) returns (states: seq<State>, es: seq<Event>)
    requires s.connected && s.holder.Free? && s.history == [] && s.pending == []
    ensures Path(max, states, es) && WellBehaved(es) && states[0] == s
    ensures states[|es|].history == [1]
    ensures states[|es|] == RaiseBarrier(s.(clock := s.clock + 2)).(history := [1], clock := s.clock + 3)
  {
    var s1 := Apply(max, s, Post(1)).value;
    assert s1.history == [1] && s1.pending == [1];
    var s2 := Apply(max, s1, LiveAcquire(0)).value;
    assert s2.pending == [] && s2.holder == Live(1, false);
    var s3 := Apply(max, s2, LiveRefuse).value;
    states, es := [s, s1, s2, s3], [Post(1), LiveAcquire(0), LiveRefuse];
  }

  lemma WatcherTakesLock(max: nat, s: State) returns (states: seq<State>, es: seq<Event>)
    requires s.connected && s.blocked && s.holder.Free? && s.watcher.NotStarted?
    ensures Path(max, states, es) && WellBehaved(es) && states[0] == s && forall e <- es :: !ConnectionLost(e)
    ensures states[|es|] ==
            s.(watcher := HoldsLock, holder := Retry(Fetching, s.generation, s.clock + 3),
               wake := false, clock := s.clock + 4)
  {
    var s1 := s.(watcher := Look, clock := s.clock + 1);
    assert Path(max, [s, s1], [WatchStart]);
    var p, fs := WatcherRetries(max, s1);
    JoinPaths(max, [s, s1], [WatchStart], p, fs);
    states, es := [s, s1] + p[1..], [WatchStart] + fs;
  }

  /** From its look at a raised barrier to the lock, with the failure count it has just read. */
  lemma WatcherRetries(max: nat, s: State) returns (states: seq<State>, es: seq<Event>)
    requires s.blocked && s.holder.Free? && s.watcher.Look?
    ensures Path(max, states, es) && WellBehaved(es) && states[0] == s && forall e <- es :: !ConnectionLost(e)
    ensures states[|es|] ==
            s.(watcher := HoldsLock, holder := Retry(Fetching, s.generation, s.clock + 2),
               wake := false, clock := s.clock + 3)
  {
    var s1 := s.(watcher := Sleeping(s.generation), clock := s.clock + 1);
    var s2 := s1.(watcher := WantsLock(s.generation), wake := false, clock := s.clock + 2);
    WatcherSleeps(max, s);
    WatcherWakes(max, s1, s.generation);
    WatcherLocks(max, s2, s.generation);
    var s3 := Apply(max, s2, WatchLock).value;
    states, es := [s, s1, s2, s3], [WatchLook, WatchElapse, WatchLock];
  }

  lemma WatcherSleeps(max: nat, s: State)
    requires s.watcher.Look? && s.blocked
    ensures Apply(max, s, WatchLook) == Some(s.(watcher := Sleeping(s.generation), clock := s.clock + 1))
  {
  }

  lemma WatcherWakes(max: nat, s: State, generation: nat)
    requires s.watcher == Sleeping(generation)
    ensures Apply(max, s, WatchElapse)
        == Some(s.(watcher := WantsLock(generation), wake := false, clock := s.clock + 1))
  {
  }

  lemma WatcherLocks(max: nat, s: State, generation: nat)
    requires s.watcher == WantsLock(generation) && s.holder.Free?
    ensures Apply(max, s, WatchLock) ==
            Some(s.(watcher := HoldsLock, holder := Retry(Fetching, generation, s.clock), clock := s.clock + 1))
  {
  }

  lemma RetrySeeds(max: nat, s: State) returns (states: seq<State>, es: seq<Event>)
    requires s.watermark == 0 && s.history != []
    requires s.holder.Retry? && s.holder.walk.Fetching?
    ensures Path(max, states, es) && WellBehaved(es) && states[0] == s
    ensures states[|es|].history == s.history && states[|es|].processed == s.processed
    ensures states[|es|].watermark == s.history[|s.history| - 1]
  {
    var last := s.history[|s.history| - 1];
    var s1 := s.(holder := s.holder.(walk := Finished(Complete)), watermark := last, saved := last,
                 clock := s.clock + 1);
    states, es := [s, s1], [Fetch];
  }

  lemma ZeroWatermarkSkips(max: nat, s: State)
    requires Initial(s, 0) && s.history == [] && s.processed == {}
    ensures !SafeFromHere(0, max, s)
  {
    var p1, e1 := EmptyStartup(max, s);
    var p2, e2 := FirstMessageFails(max, p1[|e1|]);
    JoinPaths(max, p1, e1, p2, e2);
    var p3, e3 := WatcherTakesLock(max, p2[|e2|]);
    JoinPaths(max, p1 + p2[1..], e1 + e2, p3, e3);
    var p4, e4 := RetrySeeds(max, p3[|e3|]);
    JoinPaths(max, p1 + p2[1..] + p3[1..], e1 + e2 + e3, p4, e4);
    var end := p4[|e4|];
    assert 1 in end.history && !Safe(0, end);
  }

  /** For a channel tracked from its beginning, every run is safe exactly when the first watermark is not 0. */
  lemma SafeIffWatermarkNonZero(w0: nat, max: nat, s: State)
    requires Initial(s, w0) && s.history == [] && s.processed == {}
    ensures SafeFromHere(w0, max, s) <==> w0 != 0
  {
    if w0 == 0 {
      ZeroWatermarkSkips(max, s);
    } else {
      NoMessageSkipped(w0, max, s);
    }
  }
}
