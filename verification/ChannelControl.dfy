/**
 The barrier and the retry watcher, on every run: no premise on handlers, logs or
 the watermark. What releases the barrier, what kills the watcher, and that a
 live watcher can always bring the channel back.
 */
module ChannelControl {
  import opened Options
  import opened ChannelProtocol
  import opened ChannelSafety
  import opened ChannelRuntime

  ghost predicate ControlInv(s: State) {
    && WatcherInv(s)
    && (!s.connected ==> s.blocked && s.holder.Free? && s.watcher.NotStarted?)
  }

  lemma StepKeepsControl(max: nat, s: State, e: Event)
    requires ControlInv(s) && Apply(max, s, e).Some?
    ensures ControlInv(Apply(max, s, e).value)
  {
  }

  /** On every run the watcher is never parked with the barrier up and no wake-up on its way. */
  lemma {:induction false} ControlOverAllRuns(max: nat, states: seq<State>, es: seq<Event>)
    requires Path(max, states, es) && ControlInv(states[0])
    ensures forall s <- states :: ControlInv(s) && !(s.watcher.Parked? && s.blocked && !s.wake)
  {
    if es == [] {
      assert states == [states[0]];
    } else {
      var n := |es| - 1;
      ControlOverAllRuns(max, states[..n + 1], es[..n]);
      assert states[n] in states[..n + 1];
      assert Apply(max, states[n], es[n]) == Some(states[n + 1]);
      StepKeepsControl(max, states[n], es[n]);
      assert states == states[..n + 1] + [states[n + 1]];
    }
  }

  // ---- what lowers the barrier ----

  /** The barrier goes down here. */
  predicate Releases(s: State, s': State) { s.blocked && !s'.blocked }

  /** A COMPLETE pass ends; if it is a retry, it began after the last live failure and none came since. */
  ghost predicate EarnedRelease(s: State, e: Event) {
    && e.EndPass? && HasPass(s) && PassOf(s) == Finished(Complete)
    && (s.holder.Retry? ==> s.failedAt < s.holder.startedAt && s.generation == s.holder.generationAtStart)
  }

  lemma ReleaseIsEarned(max: nat, s: State, e: Event)
    requires ControlInv(s) && Apply(max, s, e).Some?
    ensures Releases(s, Apply(max, s, e).value) <==> s.blocked && EarnedRelease(s, e)
  {
  }

  /** On every run: the barrier comes down where a COMPLETE pass that saw the last live failure ends, and only there. */
  lemma BarrierRelease(max: nat, states: seq<State>, es: seq<Event>, i: nat)
    requires Path(max, states, es) && ControlInv(states[0]) && i < |es|
    ensures Releases(states[i], states[i + 1]) <==> states[i].blocked && EarnedRelease(states[i], es[i])
  {
    ControlOverAllRuns(max, states, es);
    assert states[i] in states;
    assert Apply(max, states[i], es[i]) == Some(states[i + 1]);
    ReleaseIsEarned(max, states[i], es[i]);
  }

  lemma {:induction false} FailedAtGrows(max: nat, states: seq<State>, es: seq<Event>, i: nat, k: nat)
    requires Path(max, states, es) && ControlInv(states[0]) && i <= k <= |es|
    ensures states[i].failedAt <= states[k].failedAt
    decreases k
  {
    if i < k {
      FailedAtGrows(max, states, es, i, k - 1);
      ControlOverAllRuns(max, states, es);
      assert states[k - 1] in states;
      assert Apply(max, states[k - 1], es[k - 1]) == Some(states[k]);
    }
  }

  /** The pass whose end lowers the barrier at j began after clock reading 'since'. */
  ghost predicate ReleasedSince(states: seq<State>, es: seq<Event>, j: nat, since: nat)
    requires |states| == |es| + 1 && j < |es|
  {
    && Releases(states[j], states[j + 1]) && EarnedRelease(states[j], es[j])
    && (states[j].holder.Retry? ==> states[j].holder.startedAt > since)
  }

  lemma LaterRelease(max: nat, states: seq<State>, es: seq<Event>, i: nat, j: nat)
    requires Path(max, states, es) && ControlInv(states[0])
    requires i < j < |es| && (es[i].LiveRefuse? || es[i].LiveCommitRaised?) && Releases(states[j], states[j + 1])
    ensures ReleasedSince(states, es, j, states[i].clock)
  {
    BarrierRelease(max, states, es, j);
    FailedAtGrows(max, states, es, i + 1, j);
    assert Apply(max, states[i], es[i]) == Some(states[i + 1]);
    assert states[i + 1].failedAt == states[i].clock;
  }

  /** On every run: after a live failure the barrier stays up until a pass that began after it ends COMPLETE. */
  lemma {:induction false} FailureHoldsBarrier(max: nat, states: seq<State>, es: seq<Event>, i: nat, k: nat)
    requires Path(max, states, es) && ControlInv(states[0])
    requires i < k <= |es| && (es[i].LiveRefuse? || es[i].LiveCommitRaised?)
    ensures states[k].blocked || exists j | i < j < k :: ReleasedSince(states, es, j, states[i].clock)
    decreases k
  {
    if k == i + 1 {
      assert Apply(max, states[i], es[i]) == Some(states[i + 1]);
    } else {
      FailureHoldsBarrier(max, states, es, i, k - 1);
      if states[k - 1].blocked && !states[k].blocked {
        LaterRelease(max, states, es, i, k - 1);
      }
    }
  }

  /** Under the premises, at that moment every unprocessed message still has its live handler. */
  lemma ReleaseMeansCaughtUp(w0: int, max: nat, states: seq<State>, es: seq<Event>, i: nat)
    requires Path(max, states, es) && WellBehaved(es) && i < |es|
    requires Inv(w0, max, states[0]) && InOrder(states[0])
    requires Releases(states[i], states[i + 1])
    ensures CaughtUp(w0, states[i + 1])
  {
    SafetyOverAllRuns(w0, max, states, es);
    assert states[i + 1] in states;
  }

  // ---- what kills the watcher ----

  /** Some error log of a retry pass raised since the connection was last lost. */
  predicate LogRaisedSinceConnect(es: seq<Event>) {
    es != [] && !ConnectionLost(es[|es| - 1]) && (es[|es| - 1].AuditRaised? || LogRaisedSinceConnect(es[..|es| - 1]))
  }

  lemma StepKills(max: nat, s: State, e: Event)
    requires ControlInv(s) && Apply(max, s, e).Some?
    ensures Apply(max, s, e).value.watcher.Dead? <==> e.AuditRaised? || (s.watcher.Dead? && !ConnectionLost(e))
  {
  }

  /** On every run: a raising pass leaves the watcher alive if and only if logging it does not raise as well. */
  lemma {:induction false} WatcherDiesIff(max: nat, states: seq<State>, es: seq<Event>)
    requires Path(max, states, es) && ControlInv(states[0]) && !states[0].watcher.Dead?
    ensures states[|es|].watcher.Dead? <==> LogRaisedSinceConnect(es)
  {
    if es != [] {
      var n := |es| - 1;
      WatcherDiesIff(max, states[..n + 1], es[..n]);
      ControlOverAllRuns(max, states, es);
      assert states[n] in states;
      assert Apply(max, states[n], es[n]) == Some(states[n + 1]);
      StepKills(max, states[n], es[n]);
    }
  }

  ghost predicate Stalled(s: State, watermark: int) {
    s.watcher.Dead? && s.blocked && s.connected && s.watermark == watermark
  }

  lemma DeadWatcherStallsStep(max: nat, s: State, e: Event, watermark: int)
    requires ControlInv(s) && Stalled(s, watermark) && !ConnectionLost(e) && Apply(max, s, e).Some?
    ensures Stalled(Apply(max, s, e).value, watermark)
  {
  }

  /** Until the connection is lost, a dead watcher leaves the barrier up and the watermark where it is. */
  lemma {:induction false} DeadWatcherStallsChannel(max: nat, states: seq<State>, es: seq<Event>)
    requires Path(max, states, es) && forall e <- es :: !ConnectionLost(e)
    requires ControlInv(states[0]) && states[0].watcher.Dead? && states[0].blocked && states[0].connected
    ensures forall s <- states :: Stalled(s, states[0].watermark)
  {
    if es == [] {
      assert states == [states[0]];
    } else {
      var n := |es| - 1;
      DeadWatcherStallsChannel(max, states[..n + 1], es[..n]);
      ControlOverAllRuns(max, states, es);
      assert states[n] in states[..n + 1] && es[n] in es;
      assert Apply(max, states[n], es[n]) == Some(states[n + 1]);
      DeadWatcherStallsStep(max, states[n], es[n], states[0].watermark);
      assert states == states[..n + 1] + [states[n + 1]];
    }
  }

  // ---- a live watcher can bring the channel back ----

  /** A well-behaved run within one connection. */
  ghost predicate Leads(max: nat, s: State, t: State) {
    exists states, es :: LeadsBy(max, s, t, states, es)
  }

  ghost predicate LeadsBy(max: nat, s: State, t: State, states: seq<State>, es: seq<Event>) {
    && Path(max, states, es) && WellBehaved(es) && (forall e <- es :: !ConnectionLost(e))
    && states[0] == s && states[|es|] == t
  }

  lemma StaysPut(max: nat, s: State)
    ensures Leads(max, s, s)
  {
    assert LeadsBy(max, s, s, [s], []);
  }

  lemma Steps(max: nat, s: State, e: Event, t: State)
    requires Apply(max, s, e) == Some(t) && WellBehaved([e]) && !ConnectionLost(e)
    ensures Leads(max, s, t)
  {
    assert LeadsBy(max, s, t, [s, t], [e]);
  }

  lemma Follows(max: nat, s: State, t: State, u: State)
    requires Leads(max, s, t) && Leads(max, t, u)
    ensures Leads(max, s, u)
  {
    var p, es :| LeadsBy(max, s, t, p, es);
    var q, fs :| LeadsBy(max, t, u, q, fs);
    JoinPaths(max, p, es, q, fs);
    assert WellBehaved(es + fs) by {
      assert forall e <- es + fs :: e in es || e in fs;
    }
    assert LeadsBy(max, s, u, p + q[1..], es + fs);
  }

  lemma LeadsKeepsInv(w0: int, max: nat, s: State, t: State)
    requires Inv(w0, max, s) && InOrder(s) && Leads(max, s, t)
    ensures Inv(w0, max, t) && InOrder(t)
  {
    var states, es :| LeadsBy(max, s, t, states, es);
    SafetyOverAllRuns(w0, max, states, es);
    assert t in states;
  }

  /** The barrier can come down, with every unprocessed message in the hands of a live handler. */
  ghost predicate CanRecover(w0: int, max: nat, s: State) {
    exists t :: Leads(max, s, t) && !t.blocked && CaughtUp(w0, t)
  }

  lemma RecoversLater(w0: int, max: nat, s: State, t: State)
    requires Leads(max, s, t) && CanRecover(w0, max, t)
    ensures CanRecover(w0, max, s)
  {
    var u :| Leads(max, t, u) && !u.blocked && CaughtUp(w0, u);
    Follows(max, s, t, u);
  }

  lemma RecoveredNow(w0: int, max: nat, s: State)
    requires Inv(w0, max, s) && !s.blocked
    ensures CanRecover(w0, max, s)
  {
    StaysPut(max, s);
  }

  /** A connected channel, barrier up and lock free, whose watcher is about to look. */
  ghost predicate Looking(w0: int, max: nat, s: State) {
    Inv(w0, max, s) && InOrder(s) && s.connected && s.blocked && s.holder.Free? && s.watcher.Look?
  }

  lemma WalkAccepts(max: nat, s: State) returns (t: State)
    requires HasPass(s) && PassOf(s).Walking? && PassOf(s).next == 0 && !PassOf(s).confirmed
    ensures Leads(max, s, t) && OnlyPass(s, t)
    ensures var batch := PassOf(s).batch;
            && PassOf(t) == Finished(if |batch| >= max then Capped else Complete)
            && t.watermark == (if batch == [] then s.watermark else batch[|batch| - 1])
  {
    var accept := (k: nat) => Accepted;
    var states, es := PassIsARun(max, s, accept);
    t := states[|es|];
    CleanPass(PassOf(s).batch, 0, accept, s.watermark, s.processed);
    assert LeadsBy(max, s, t, states, es);
  }

  lemma WatcherGetsLock(max: nat, s: State) returns (t: State)
    requires s.blocked && s.holder.Free? && s.watcher.Look?
    ensures Leads(max, s, t)
    ensures t == s.(watcher := HoldsLock, holder := Retry(Fetching, s.generation, s.clock + 2),
                    wake := false, clock := s.clock + 3)
  {
    var states, es := WatcherRetries(max, s);
    t := states[|es|];
    assert LeadsBy(max, s, t, states, es);
  }

  lemma FetchesBatch(max: nat, s: State) returns (t: State)
    requires HasPass(s) && PassOf(s).Fetching? && s.watermark != 0
    ensures Leads(max, s, t)
    ensures t == WithPass(s, Walking(Batch(s.history, s.watermark, max), 0, false)).(clock := s.clock + 1)
  {
    t := Apply(max, s, Fetch).value;
    Steps(max, s, Fetch, t);
  }

  lemma EndsPass(max: nat, s: State) returns (t: State)
    requires HasPass(s) && PassOf(s).Finished?
    ensures Leads(max, s, t) && t == EndPassEffect(s).(clock := s.clock + 1)
  {
    t := Apply(max, s, EndPass).value;
    Steps(max, s, EndPass, t);
  }

  function Backlog(s: State): nat { |Newer(s.history, s.watermark)| }

  /** One more pass by a live watcher, every message accepted: the barrier comes down or the backlog shrinks. */
  lemma OneRetry(w0: int, max: nat, s: State) returns (t: State)
    requires Looking(w0, max, s) && max > 0
    ensures Leads(max, s, t)
    ensures !t.blocked || (Looking(w0, max, t) && Backlog(t) < Backlog(s))
  {
    var s1 := WatcherGetsLock(max, s);
    var s2 := FetchesBatch(max, s1);
    Follows(max, s, s1, s2);
    var s3 := WalkAccepts(max, s2);
    Follows(max, s, s2, s3);
    t := EndsPass(max, s3);
    Follows(max, s, s3, t);
    LeadsKeepsInv(w0, max, s, t);
    var batch := Batch(s.history, s.watermark, max);
    if |batch| >= max {
      NewerAfter(s.history, s.watermark, |batch|);
      assert batch[|batch| - 1] == Newer(s.history, s.watermark)[|batch| - 1];
    }
  }

  lemma {:induction false} LiveWatcherRecovers(w0: int, max: nat, s: State)
    requires Looking(w0, max, s) && max > 0
    ensures CanRecover(w0, max, s)
    decreases Backlog(s)
  {
    var t := OneRetry(w0, max, s);
    LeadsKeepsInv(w0, max, s, t);
    if t.blocked {
      LiveWatcherRecovers(w0, max, t);
    } else {
      RecoveredNow(w0, max, t);
    }
    RecoversLater(w0, max, s, t);
  }

  /** A pass that has not read its batch can always read it. */
  lemma PassReads(max: nat, s: State) returns (t: State)
    requires HasPass(s) && PassOf(s).Fetching?
    ensures Leads(max, s, t) && HasPass(t) && !PassOf(t).Fetching?
    ensures PassOf(t).Walking? ==> !PassOf(t).confirmed
    ensures t.connected == s.connected && t.history == s.history && t.watcher == s.watcher
    ensures t.holder.Retry? <==> s.holder.Retry?
  {
    t := Apply(max, s, Fetch).value;
    Steps(max, s, Fetch, t);
  }

  /** One that has can always end its walk, at the latest where it stands. */
  lemma WalkCloses(max: nat, s: State) returns (t: State)
    requires HasPass(s) && PassOf(s).Walking?
    requires PassOf(s).confirmed ==> PassOf(s).next < |PassOf(s).batch|
    ensures Leads(max, s, t) && HasPass(t) && PassOf(t).Finished?
    ensures t.connected == s.connected && t.history == s.history && t.watcher == s.watcher
    ensures t.holder.Retry? <==> s.holder.Retry?
  {
    var e := if PassOf(s).next >= |PassOf(s).batch| then Conclude
             else if PassOf(s).confirmed then AdvanceRaised(false) else Refuse;
    t := Apply(max, s, e).value;
    Steps(max, s, e, t);
  }

  /** A pass can always be brought to its end. */
  lemma PassCloses(max: nat, s: State) returns (t: State)
    requires HasPass(s) && s.connected
    requires PassOf(s).Walking? && PassOf(s).confirmed ==> PassOf(s).next < |PassOf(s).batch|
    ensures Leads(max, s, t) && t.holder.Free? && t.connected && t.history == s.history
    ensures t.watcher == if s.holder.Retry? then Look else s.watcher
  {
    var s1 := s;
    StaysPut(max, s);
    if PassOf(s).Fetching? {
      s1 := PassReads(max, s);
    }
    var s2 := s1;
    if PassOf(s1).Walking? {
      s2 := WalkCloses(max, s1);
      Follows(max, s, s1, s2);
    }
    t := EndsPass(max, s2);
    Follows(max, s, s2, t);
  }

  /** So can a live handler behind a raised barrier. */
  lemma HandlerCloses(max: nat, s: State) returns (t: State)
    requires s.holder.Live? && s.blocked
    ensures Leads(max, s, t) && t.holder.Free? && t.connected == s.connected && t.watcher == s.watcher && t.blocked
  {
    var s1 := s;
    StaysPut(max, s);
    if !s.holder.confirmed {
      s1 := Apply(max, s, LiveConfirm).value;
      Steps(max, s, LiveConfirm, s1);
    }
    t := Apply(max, s1, LiveCommit).value;
    Steps(max, s1, LiveCommit, t);
    Follows(max, s, s1, t);
  }

  /** A watcher that is asleep or waiting for the lock makes its pass, which may fail, and looks again. */
  lemma RetryFails(max: nat, s: State, generation: nat) returns (t: State)
    requires s.holder.Free? && s.connected && s.blocked && s.watcher == WantsLock(generation)
    ensures Leads(max, s, t) && t.holder.Free? && t.connected && t.blocked && t.watcher.Look?
  {
    var s1 := Apply(max, s, WatchLock).value;
    Steps(max, s, WatchLock, s1);
    var s2 := Apply(max, s1, FetchRaised).value;
    Steps(max, s1, FetchRaised, s2);
    Follows(max, s, s1, s2);
    t := EndsPass(max, s2);
    Follows(max, s, s2, t);
  }

  lemma WatcherLooks(max: nat, s: State) returns (t: State)
    requires WatcherInv(s) && s.holder.Free? && s.connected && s.blocked && !s.watcher.Dead?
    ensures Leads(max, s, t) && t.holder.Free? && t.connected && t.blocked && t.watcher.Look?
  {
    match s.watcher {
      case NotStarted =>
        t := Apply(max, s, WatchStart).value;
        Steps(max, s, WatchStart, t);
      case Look =>
        t := s;
        StaysPut(max, s);
      case Parked =>
        t := Apply(max, s, WatchUnpark).value;
        Steps(max, s, WatchUnpark, t);
      case Sleeping(g) =>
        var s1 := Apply(max, s, WatchElapse).value;
        Steps(max, s, WatchElapse, s1);
        t := RetryFails(max, s1, g);
        Follows(max, s, s1, t);
      case WantsLock(g) =>
        t := RetryFails(max, s, g);
    }
  }

  lemma LockFreed(w0: int, max: nat, s: State) returns (t: State)
    requires Inv(w0, max, s) && s.connected && s.blocked && !s.watcher.Dead?
    ensures Leads(max, s, t) && t.connected && t.holder.Free? && !t.watcher.Dead?
  {
    if s.holder.Free? {
      t := s;
      StaysPut(max, s);
    } else if s.holder.Live? {
      t := HandlerCloses(max, s);
    } else {
      t := PassCloses(max, s);
    }
  }

  lemma DeadNeverRecovers(max: nat, s: State, t: State)
    requires ControlInv(s) && s.connected && s.blocked && s.watcher.Dead? && Leads(max, s, t)
    ensures t.blocked
  {
    var states, es :| LeadsBy(max, s, t, states, es);
    DeadWatcherStallsChannel(max, states, es);
    assert t in states;
  }

  /**
   With the barrier up, the channel can come back without a restart or reconnect
   if and only if its watcher is alive.
   */
  lemma RecoversIffWatcherLives(w0: int, max: nat, s: State)
    requires Inv(w0, max, s) && InOrder(s) && max > 0 && s.connected && s.blocked
    ensures CanRecover(w0, max, s) <==> !s.watcher.Dead?
  {
    if s.watcher.Dead? {
      forall t | Leads(max, s, t) ensures t.blocked {
        DeadNeverRecovers(max, s, t);
      }
    } else {
      var s1 := LockFreed(w0, max, s);
      LeadsKeepsInv(w0, max, s, s1);
      if s1.blocked {
        var s2 := WatcherLooks(max, s1);
        LeadsKeepsInv(w0, max, s1, s2);
        LiveWatcherRecovers(w0, max, s2);
        RecoversLater(w0, max, s1, s2);
      } else {
        RecoveredNow(w0, max, s1);
      }
      RecoversLater(w0, max, s, s1);
    }
  }

  // ---- and any watcher can die ----

  /** Behind a raised barrier: the next pass cannot fetch, and logging that raises too. */
  lemma BlockedWatcherCanDie(max: nat, s: State) returns (t: State)
    requires s.connected && s.blocked && s.holder.Free? && s.watcher.NotStarted?
    ensures Leads(max, s, t) && t.watcher.Dead? && t.blocked && t.connected
  {
    var s1 := Apply(max, s, WatchStart).value;
    Steps(max, s, WatchStart, s1);
    var s2 := WatcherGetsLock(max, s1);
    Follows(max, s, s1, s2);
    var s3 := Apply(max, s2, FetchRaised).value;
    Steps(max, s2, FetchRaised, s3);
    Follows(max, s, s2, s3);
    t := Apply(max, s3, AuditRaised).value;
    Steps(max, s3, AuditRaised, t);
    Follows(max, s, s3, t);
  }

  /** A live message can always fail, which raises the barrier. */
  lemma LiveMessageFails(max: nat, s: State) returns (t: State)
    requires s.connected && s.holder.Free? && forall id <- s.history :: id > 0
    ensures Leads(max, s, t) && t.connected && t.blocked && t.holder.Free? && t.watcher == s.watcher
  {
    var id := if s.history == [] then 1 else s.history[|s.history| - 1] + 1;
    assert s.history != [] ==> s.history[|s.history| - 1] in s.history;
    var s1 := Apply(max, s, Post(id)).value;
    Steps(max, s, Post(id), s1);
    var s2 := Apply(max, s1, LiveAcquire(0)).value;
    Steps(max, s1, LiveAcquire(0), s2);
    Follows(max, s, s1, s2);
    t := Apply(max, s2, LiveRefuse).value;
    Steps(max, s2, LiveRefuse, t);
    Follows(max, s, s2, t);
  }

  /**
   From any start, within one connection: startup ends, a live message fails unless
   the barrier is up already, one fetch of the watcher's raises and its log as well,
   and the channel is shut until it reconnects.
   */
  lemma WatcherCanDie(max: nat, s: State, w0: int) returns (t: State)
    requires Initial(s, w0)
    ensures Leads(max, s, t) && t.watcher.Dead? && t.blocked && t.connected
  {
    var s1 := Apply(max, s, Connect).value;
    Steps(max, s, Connect, s1);
    var s2 := PassCloses(max, s1);
    Follows(max, s, s1, s2);
    var s3 := s2;
    if !s2.blocked {
      s3 := LiveMessageFails(max, s2);
      Follows(max, s, s2, s3);
    }
    t := BlockedWatcherCanDie(max, s3);
    Follows(max, s, s3, t);
  }
}
