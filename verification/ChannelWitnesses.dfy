/** Runs of one channel that the premises rule out, and what a first watermark of 0 leaves safe. */
module ChannelWitnesses {
  import opened Options
  import opened ChannelProtocol
  import opened ChannelSafety
  import opened ChannelRuntime
  import opened ChannelControl

  /** One more event at the end of a run. */
  lemma Then(max: nat, states: seq<State>, es: seq<Event>, e: Event) returns (more: seq<State>)
    requires Path(max, states, es) && Apply(max, states[|es|], e).Some?
    ensures Path(max, more, es + [e]) && more[0] == states[0]
    ensures more[|es| + 1] == Apply(max, states[|es|], e).value
  {
    more := states + [Apply(max, states[|es|], e).value];
    forall i | 0 <= i < |es| + 1 ensures Apply(max, more[i], (es + [e])[i]) == Some(more[i + 1]) {
      if i < |es| {
        assert Apply(max, states[i], es[i]) == Some(states[i + 1]);
      }
    }
  }

  /** Startup over a channel that holds nothing newer than the watermark. */
  lemma QuietStartup(max: nat, s: State) returns (states: seq<State>)
    requires Initial(s, 1) && s.history == [1] && max > 0
    ensures Path(max, states, [Connect, Fetch, Conclude, EndPass]) && states[0] == s
    ensures states[4] == s.(connected := true, blocked := false, generation := 0, wake := false, clock := 5)
  {
    states := Then(max, [s], [], Connect);
    var t := states[1];
    assert t == s.(connected := true, holder := Startup(Fetching), generation := 0, wake := false, clock := 2);
    var q := EmptyPass(max, t);
    JoinPaths(max, states, [Connect], q, [Fetch, Conclude, EndPass]);
    states := states + q[1..];
    assert [Connect] + [Fetch, Conclude, EndPass] == [Connect, Fetch, Conclude, EndPass];
  }

  lemma EmptyPass(max: nat, s: State) returns (states: seq<State>)
    requires s.holder == Startup(Fetching) && s.history == [1] && s.watermark == 1 && max > 0
    ensures Path(max, states, [Fetch, Conclude, EndPass]) && states[0] == s
    ensures states[3] == s.(holder := Free, blocked := false, clock := s.clock + 3)
  {
    FetchesNothing(max, s);
    states := Then(max, [s], [], Fetch);
    ConcludesEmpty(max, states[1]);
    states := Then(max, states, [Fetch], Conclude);
    ReleasesBarrier(max, states[2]);
    states := Then(max, states, [Fetch, Conclude], EndPass);
  }

  lemma FetchesNothing(max: nat, s: State)
    requires s.holder == Startup(Fetching) && s.history == [1] && s.watermark == 1
    ensures Apply(max, s, Fetch) == Some(s.(holder := Startup(Walking([], 0, false)), clock := s.clock + 1))
  {
    NewerIsSuffix([1], 1, 1);
  }

  lemma ConcludesEmpty(max: nat, s: State)
    requires s.holder == Startup(Walking([], 0, false)) && max > 0
    ensures Apply(max, s, Conclude) == Some(s.(holder := Startup(Finished(Complete)), clock := s.clock + 1))
  {
  }

  lemma ReleasesBarrier(max: nat, s: State)
    requires s.holder == Startup(Finished(Complete))
    ensures Apply(max, s, EndPass) == Some(s.(holder := Free, blocked := false, clock := s.clock + 1))
  {
  }

  /** Messages 2 and 3 arrive. */
  lemma TwoArrive(max: nat, s: State) returns (states: seq<State>)
    requires s.connected && s.history == [1] && s.pending == []
    ensures Path(max, states, [Post(2), Post(3)]) && states[0] == s
    ensures states[2] == s.(history := [1, 2, 3], pending := [2, 3], clock := s.clock + 2)
  {
    states := Then(max, [s], [], Post(2));
    states := Then(max, states, [Post(2)], Post(3));
    assert [] + [2] + [3] == [2, 3] && [1] + [2] + [3] == [1, 2, 3];
  }

  /** The handler of message i of those pending runs, succeeds and writes its id. */
  lemma HandlerCommits(max: nat, s: State, i: nat) returns (states: seq<State>)
    requires s.connected && s.holder.Free? && !s.blocked && i < |s.pending|
    ensures Path(max, states, [LiveAcquire(i), LiveConfirm, LiveCommit]) && states[0] == s
    ensures states[3].history == s.history && states[3].watermark == s.pending[i]
    ensures states[3].processed == s.processed + {s.pending[i]}
  {
    states := Then(max, [s], [], LiveAcquire(i));
    states := Then(max, states, [LiveAcquire(i)], LiveConfirm);
    states := Then(max, states, [LiveAcquire(i), LiveConfirm], LiveCommit);
  }

  /** ... or fails together with its error log. */
  lemma HandlerLost(max: nat, s: State) returns (states: seq<State>)
    requires s.connected && s.holder.Free? && s.pending != []
    ensures Path(max, states, [LiveAcquire(0), LiveLost]) && states[0] == s
    ensures states[2] == s.(pending := s.pending[1..], clock := s.clock + 2)
  {
    states := Then(max, [s], [], LiveAcquire(0));
    states := Then(max, states, [LiveAcquire(0)], LiveLost);
    assert s.pending[..0] + s.pending[0 + 1..] == s.pending[1..];
  }

  lemma TwoArriveAfterStartup(max: nat, s: State) returns (states: seq<State>)
    requires Initial(s, 1) && s.history == [1] && max > 0
    ensures Path(max, states, [Connect, Fetch, Conclude, EndPass, Post(2), Post(3)]) && states[0] == s
    ensures var t := states[6];
            && t.connected && t.holder.Free? && !t.blocked
            && t.history == [1, 2, 3] && t.pending == [2, 3] && t.processed == s.processed
  {
    var p := QuietStartup(max, s);
    var q := TwoArrive(max, p[4]);
    JoinPaths(max, p, [Connect, Fetch, Conclude, EndPass], q, [Post(2), Post(3)]);
    states := p + q[1..];
    assert [Connect, Fetch, Conclude, EndPass] + [Post(2), Post(3)] ==
           [Connect, Fetch, Conclude, EndPass, Post(2), Post(3)];
  }

  /**
   Two handlers that reach the lock in the wrong order skip a message: in this run
   nothing fails, and message 2 is lost by a restart while its handler waits.
   */
  lemma ReorderedHandlersSkip(max: nat, s: State) returns (states: seq<State>, es: seq<Event>)
    requires Initial(s, 1) && s.history == [1] && s.processed == {} && max > 0
    ensures Path(max, states, es) && states[0] == s && LiveLost !in es
    ensures !Safe(1, states[|es|])
  {
    var p := TwoArriveAfterStartup(max, s);
    var q := HandlerCommits(max, p[6], 1);
    var fs := [Connect, Fetch, Conclude, EndPass, Post(2), Post(3)];
    JoinPaths(max, p, fs, q, [LiveAcquire(1), LiveConfirm, LiveCommit]);
    states, es := p + q[1..], fs + [LiveAcquire(1), LiveConfirm, LiveCommit];
    assert 2 in states[|es|].history;
  }

  /** A live failure whose error log raises skips its message as soon as the next one succeeds, in arrival order. */
  lemma LostFailureSkips(max: nat, s: State) returns (states: seq<State>, es: seq<Event>)
    requires Initial(s, 1) && s.history == [1] && s.processed == {} && max > 0
    ensures Path(max, states, es) && states[0] == s && forall e <- es :: e.LiveAcquire? ==> e.index == 0
    ensures !Safe(1, states[|es|])
  {
    var p := TwoArriveAfterStartup(max, s);
    var q := HandlerLost(max, p[6]);
    var fs := [Connect, Fetch, Conclude, EndPass, Post(2), Post(3)];
    JoinPaths(max, p, fs, q, [LiveAcquire(0), LiveLost]);
    var r := HandlerCommits(max, q[2], 0);
    JoinPaths(max, p + q[1..], fs + [LiveAcquire(0), LiveLost], r, [LiveAcquire(0), LiveConfirm, LiveCommit]);
    states := p + q[1..] + r[1..];
    es := fs + [LiveAcquire(0), LiveLost] + [LiveAcquire(0), LiveConfirm, LiveCommit];
    assert 2 in states[|es|].history;
  }

  // ---- a first watermark of 0 over a channel that holds messages ----

  /** The parts of the invariant that do not speak of the watermark. */
  ghost predicate Ready(s: State) { QueueInv(s) && WatcherInv(s) }

  lemma StepKeepsReady(max: nat, s: State, e: Event)
    requires Ready(s) && Apply(max, s, e).Some?
    ensures Ready(Apply(max, s, e).value)
  {
    StepKeepsControl(max, s, e);
    if e.Post? {
      PostKeepsQueue(max, s, e.id);
    } else if e.LiveAcquire? {
      AcquireKeepsQueue(max, s, e.index);
    } else if s.holder.Live? {
      LiveKeepsQueue(max, s, e);
    } else {
      StepKeepsQueue(max, s, e);
    }
  }

  lemma LiveKeepsQueue(max: nat, s: State, e: Event)
    requires Ready(s) && s.holder.Live? && !e.Post? && !e.LiveAcquire? && Apply(max, s, e).Some?
    ensures QueueInv(Apply(max, s, e).value)
  {
  }

  lemma AcquireKeepsQueue(max: nat, s: State, i: nat)
    requires QueueInv(s) && Apply(max, s, LiveAcquire(i)).Some?
    ensures QueueInv(Apply(max, s, LiveAcquire(i)).value)
  {
    RemoveAscending(s.pending, i);
  }

  lemma StepKeepsQueue(max: nat, s: State, e: Event)
    requires Ready(s) && !s.holder.Live? && !e.Post? && !e.LiveAcquire? && Apply(max, s, e).Some?
    ensures QueueInv(Apply(max, s, e).value)
  {
    var s' := Apply(max, s, e).value;
    assert s'.history == s.history && (s'.pending == s.pending || s'.pending == []);
  }

  lemma {:induction false} ReadyOverAllRuns(max: nat, states: seq<State>, es: seq<Event>)
    requires Path(max, states, es) && Ready(states[0])
    ensures forall s <- states :: Ready(s)
  {
    if es == [] {
      assert states == [states[0]];
    } else {
      var n := |es| - 1;
      ReadyOverAllRuns(max, states[..n + 1], es[..n]);
      assert states[n] in states[..n + 1];
      assert Apply(max, states[n], es[n]) == Some(states[n + 1]);
      StepKeepsReady(max, states[n], es[n]);
      assert states == states[..n + 1] + [states[n + 1]];
    }
  }

  /**
   Whenever in a run a channel without a watermark is seeded from a message it
   holds, at startup or on a retry, nothing posted after the seed is ever skipped.
   */
  lemma SafeFromTheSeed(w0: int, max: nat, states: seq<State>, es: seq<Event>, i: nat)
    requires Path(max, states, es) && Initial(states[0], w0) && i < |es|
    requires es[i] == Fetch && states[i].watermark == 0 && states[i].history != []
    ensures var seed := states[i].history[|states[i].history| - 1];
            states[i + 1].watermark == seed && SafeFromHere(seed, max, states[i + 1])
  {
    ReadyOverAllRuns(max, states, es);
    var s := states[i];
    assert s in states && Apply(max, s, es[i]) == Some(states[i + 1]);
    var seed := s.history[|s.history| - 1];
    assert seed in s.history && forall id <- s.history :: id <= seed;
    InvMeansSafeFromHere(seed, max, states[i + 1]);
  }
}
