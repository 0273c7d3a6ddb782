/**
 What a restart finds. As long as every write of the watermark gets to the disk, a
 process that dies leaves nothing behind it, and what a live handler has committed
 is never fetched again.
 */
module ChannelDurability {
  import opened Options
  import opened ChannelProtocol
  import opened ChannelSafety
  import opened ChannelControl
  import opened ChannelWitnesses

  /** Writing the watermark raised without reaching the disk. */
  predicate WriteLost(e: Event) { e == AdvanceRaised(false) || e == LiveCommitRaised(false) }

  lemma StepSaves(max: nat, s: State, e: Event)
    requires s.saved == s.watermark && !WriteLost(e) && Apply(max, s, e).Some?
    ensures Apply(max, s, e).value.saved == Apply(max, s, e).value.watermark
  {
  }

  lemma {:induction false} SavedAt(max: nat, states: seq<State>, es: seq<Event>, k: nat)
    requires Path(max, states, es) && states[0].saved == states[0].watermark && forall e <- es :: !WriteLost(e)
    requires k <= |es|
    ensures states[k].saved == states[k].watermark
    decreases k
  {
    if k > 0 {
      SavedAt(max, states, es, k - 1);
      assert es[k - 1] in es && Apply(max, states[k - 1], es[k - 1]) == Some(states[k]);
      StepSaves(max, states[k - 1], es[k - 1]);
    }
  }

  /** On every run without a lost write the disk has the watermark, so neither a death nor a disconnect moves it. */
  lemma SavedOverAllRuns(max: nat, states: seq<State>, es: seq<Event>)
    requires Path(max, states, es) && states[0].saved == states[0].watermark && forall e <- es :: !WriteLost(e)
    ensures forall s <- states :: s.saved == s.watermark
    ensures forall i | 0 <= i < |es| && ConnectionLost(es[i]) :: states[i + 1].watermark == states[i].watermark
  {
    forall s | s in states ensures s.saved == s.watermark {
      var k :| 0 <= k < |states| && states[k] == s;
      SavedAt(max, states, es, k);
    }
    forall i | 0 <= i < |es| && ConnectionLost(es[i]) ensures states[i + 1].watermark == states[i].watermark {
      SavedAt(max, states, es, i);
      assert Apply(max, states[i], es[i]) == Some(states[i + 1]);
    }
  }

  /** Whatever a death undoes is the last watermark written in vain. */
  lemma CrashRestoresSaved(max: nat, s: State)
    ensures Apply(max, s, Crash).value.watermark == s.saved && Apply(max, s, Disconnect).value.watermark == s.watermark
  {
  }

  // ---- what is committed is behind ----

  /** The message is behind both watermarks, and so is everything before whatever is still to come. */
  ghost predicate Behind(id: int, s: State) {
    && id in s.history && id > 0 && id <= s.watermark && id <= s.saved
    && (forall p <- s.pending :: id < p)
    && (s.holder.Live? ==> id < s.holder.id)
    && (HasPass(s) && PassOf(s).Walking? ==> forall b <- PassOf(s).batch :: id < b)
  }

  lemma CommitLeavesBehind(max: nat, s: State)
    requires Ready(s) && InOrder(s) && s.saved == s.watermark
    requires s.holder.Live? && s.holder.confirmed && !s.blocked
    ensures Apply(max, s, LiveCommit).Some? && Behind(s.holder.id, Apply(max, s, LiveCommit).value)
  {
  }

  lemma PostKeepsBehind(id: int, max: nat, s: State, post: int)
    requires Ready(s) && Behind(id, s) && Apply(max, s, Post(post)).Some?
    ensures Behind(id, Apply(max, s, Post(post)).value)
  {
    PostIsNewest(max, s, post);
    var s' := Apply(max, s, Post(post)).value;
    assert s'.holder == s.holder && (HasPass(s) ==> PassOf(s') == PassOf(s));
    assert forall p <- s'.pending :: p in s.pending || p == post;
  }

  lemma FetchKeepsBehind(id: int, max: nat, s: State)
    requires Ready(s) && Behind(id, s) && Apply(max, s, Fetch).Some?
    ensures Behind(id, Apply(max, s, Fetch).value)
    ensures PassOf(Apply(max, s, Fetch).value).Walking? && id !in PassOf(Apply(max, s, Fetch).value).batch
  {
    BatchCovers(s.history, s.watermark, max);
  }

  lemma AcquireKeepsBehind(id: int, max: nat, s: State, i: nat)
    requires Ready(s) && Behind(id, s) && Apply(max, s, LiveAcquire(i)).Some?
    ensures Behind(id, Apply(max, s, LiveAcquire(i)).value)
  {
    RemoveAscending(s.pending, i);
    assert s.pending[i] in s.pending;
  }

  lemma WalkKeepsBehind(id: int, max: nat, s: State, e: Event)
    requires Ready(s) && Behind(id, s) && HasPass(s) && PassOf(s).Walking?
    requires !WriteLost(e) && WalkEffect(max, s, e).Some?
    ensures Behind(id, WalkEffect(max, s, e).value)
  {
    var Walking(batch, next, _) := PassOf(s);
    if next < |batch| {
      assert batch[next] in batch;
    }
  }

  lemma OthersKeepBehind(id: int, max: nat, s: State, e: Event)
    requires Ready(s) && Behind(id, s) && !WriteLost(e) && Apply(max, s, e).Some?
    requires !e.Post? && !e.Fetch? && !e.LiveAcquire? && WalkEffect(max, s, e).None?
    ensures Behind(id, Apply(max, s, e).value)
  {
  }

  lemma StepKeepsBehind(id: int, max: nat, s: State, e: Event)
    requires Ready(s) && Behind(id, s) && !WriteLost(e) && Apply(max, s, e).Some?
    ensures Behind(id, Apply(max, s, e).value)
  {
    if e.Post? {
      PostKeepsBehind(id, max, s, e.id);
    } else if e.Fetch? {
      FetchKeepsBehind(id, max, s);
    } else if e.LiveAcquire? {
      AcquireKeepsBehind(id, max, s, e.index);
    } else if WalkEffect(max, s, e).Some? {
      WalkKeepsBehind(id, max, s, e);
    } else {
      OthersKeepBehind(id, max, s, e);
    }
  }

  lemma {:induction false} BehindEverAfter(id: int, max: nat, states: seq<State>, es: seq<Event>, i: nat, k: nat)
    requires Path(max, states, es) && Ready(states[0]) && forall e <- es :: !WriteLost(e)
    requires i <= k <= |es| && Behind(id, states[i])
    ensures Behind(id, states[k])
    decreases k
  {
    if i < k {
      BehindEverAfter(id, max, states, es, i, k - 1);
      ReadyOverAllRuns(max, states, es);
      assert states[k - 1] in states && es[k - 1] in es;
      assert Apply(max, states[k - 1], es[k - 1]) == Some(states[k]);
      StepKeepsBehind(id, max, states[k - 1], es[k - 1]);
    }
  }

  // ---- arrival order, told from the queue alone ----

  ghost predicate Ordered(es: seq<Event>) { forall e <- es :: e.LiveAcquire? ==> e.index == 0 }

  lemma StepKeepsOrdered(max: nat, s: State, e: Event)
    requires Ready(s) && InOrder(s) && Apply(max, s, e).Some? && (e.LiveAcquire? ==> e.index == 0)
    ensures InOrder(Apply(max, s, e).value)
  {
    if e.Post? {
      PostKeepsOrder(max, s, e.id);
    } else if e.LiveAcquire? {
      RemoveAscending(s.pending, 0);
    } else {
      OthersKeepOrder(max, s, e);
    }
  }

  lemma {:induction false} OrderOverAllRuns(max: nat, states: seq<State>, es: seq<Event>, k: nat)
    requires Path(max, states, es) && Ready(states[0]) && InOrder(states[0]) && Ordered(es) && k <= |es|
    ensures InOrder(states[k])
    decreases k
  {
    if k > 0 {
      OrderOverAllRuns(max, states, es, k - 1);
      ReadyOverAllRuns(max, states, es);
      assert states[k - 1] in states && es[k - 1] in es;
      assert Apply(max, states[k - 1], es[k - 1]) == Some(states[k]);
      StepKeepsOrdered(max, states[k - 1], es[k - 1]);
    }
  }

  /**
   Main result: on every run with handlers in arrival order and no lost write, a
   message that a live handler committed at i is in no batch that any later pass
   fetches, in that process or after any number of restarts.
   */
  lemma CommittedIsNotFetched(max: nat, states: seq<State>, es: seq<Event>, i: nat, k: nat)
    requires Path(max, states, es) && Ready(states[0]) && InOrder(states[0])
    requires states[0].saved == states[0].watermark && Ordered(es) && forall e <- es :: !WriteLost(e)
    requires i < k < |es| && es[i] == LiveCommit && !states[i].blocked && es[k] == Fetch
    ensures states[i].holder.Live? && states[i].holder.id <= states[k].saved
    ensures HasPass(states[k + 1]) && PassOf(states[k + 1]).Walking?
    ensures states[i].holder.id !in PassOf(states[k + 1]).batch
  {
    ReadyOverAllRuns(max, states, es);
    OrderOverAllRuns(max, states, es, i);
    SavedOverAllRuns(max, states, es);
    assert states[i] in states && states[k] in states;
    assert Apply(max, states[i], es[i]) == Some(states[i + 1]);
    CommitLeavesBehind(max, states[i]);
    BehindEverAfter(states[i].holder.id, max, states, es, i + 1, k);
    assert Apply(max, states[k], es[k]) == Some(states[k + 1]);
    FetchKeepsBehind(states[i].holder.id, max, states[k]);
  }
}
