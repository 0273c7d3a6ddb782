/** Notification resumptions under the per-job lock publish a job at most once. */
module JobOnce {
  import opened Options
  import opened JobLifecycle

  predicate Inside(pc: Pc) {
    !InProcess(pc) && pc != Lock
  }

  /**
   Only _resume_pending_notifications is running, in one process: the lock is
   taken when nobody holds it, and no call fails.
   */
  ghost predicate ResumeOnly(w: World, e: Event) {
    match e
    case Spawn(_, kind) => kind == Notifier
    case Act(t, _) => t in w.threads && w.threads[t].pc == Lock ==> forall u <- w.threads :: !Inside(w.threads[u].pc)
    case Die(_) => false
    case Tick(_) => true
  }

  /** The outcome is recorded and whoever holds the lock is about to see it. */
  ghost predicate Settled(w: World) {
    && w.store.row.Some? && (w.store.row.value.status == Complete || w.store.row.value.status == Suppressed)
    && forall t <- w.threads :: Inside(w.threads[t].pc) ==> w.threads[t].pc == Latest
  }

  ghost predicate Publishing(w: World) {
    exists t <- w.threads :: w.threads[t].pc == MarkComplete
  }

  ghost predicate Mutual(w: World) {
    && (forall t <- w.threads :: !InProcess(w.threads[t].pc))
    && (forall t, u | t in w.threads && u in w.threads :: Inside(w.threads[t].pc) && Inside(w.threads[u].pc) ==> t == u)
  }

  ghost predicate Inv(base: nat, w: World) {
    && Mutual(w)
    && w.store.row.Some?
    && ((|w.store.published| == base && !Publishing(w))
        || (|w.store.published| == base + 1 && (Publishing(w) || Settled(w))))
  }

  lemma ResumptionStaysInside(cfg: Config, s: Store, pc: Pc, choice: Choice)
    requires !InProcess(pc) && Step(cfg, s, pc, choice).Some?
    ensures var (s', next) := Step(cfg, s, pc, choice).value;
            (next.At? ==> Inside(next.pc)) && (s.row.Some? ==> s'.row.Some?)
  {
  }

  lemma CommitKeepsMutual(w: World, t: int, s': Store, next: Next)
    requires Mutual(w) && t in w.threads && (next.At? ==> Inside(next.pc))
    requires w.threads[t].pc == Lock ==> forall u <- w.threads :: !Inside(w.threads[u].pc)
    ensures Mutual(Commit(w, t, s', next))
  {
    var w' := Commit(w, t, s', next);
    assert forall u <- w'.threads | u != t :: u in w.threads && w'.threads[u] == w.threads[u];
    assert forall u <- w.threads | u != t :: !Inside(w.threads[u].pc);
  }

  lemma EventKeepsMutual(cfg: Config, w: World, e: Event)
    requires Mutual(w) && ResumeOnly(w, e) && Apply(cfg, w, e).Some?
    ensures Mutual(Apply(cfg, w, e).value)
  {
    if e.Act? {
      var pc := w.threads[e.thread].pc;
      var (s', next) := Step(cfg, w.store, pc, e.choice).value;
      ResumptionStaysInside(cfg, w.store, pc, e.choice);
      CommitKeepsMutual(w, e.thread, s', next);
    }
  }

  /** Once settled, nothing more is published. */
  lemma EventKeepsSettled(cfg: Config, w: World, e: Event)
    requires Mutual(w) && Settled(w) && ResumeOnly(w, e) && Apply(cfg, w, e).Some?
    ensures Settled(Apply(cfg, w, e).value) && Apply(cfg, w, e).value.store.published == w.store.published
  {
    var w' := Apply(cfg, w, e).value;
    if e.Act? {
      assert w.threads[e.thread].pc == Lock || w.threads[e.thread].pc == Latest;
      assert forall u <- w'.threads | u != e.thread :: w'.threads[u] == w.threads[u];
    }
  }

  lemma ActKeepsInv(cfg: Config, base: nat, w: World, t: int, choice: Choice)
    requires Inv(base, w) && ResumeOnly(w, Act(t, choice)) && Apply(cfg, w, Act(t, choice)).Some?
    ensures Inv(base, Apply(cfg, w, Act(t, choice)).value)
  {
    var w' := Apply(cfg, w, Act(t, choice)).value;
    var pc := w.threads[t].pc;
    EventKeepsMutual(cfg, w, Act(t, choice));
    if pc.Send? {
      assert w'.threads[t].pc == MarkComplete;
      assert !Publishing(w) && !Settled(w);
    } else if pc == MarkComplete {
      assert forall u <- w'.threads :: !Inside(w'.threads[u].pc);
      assert Settled(w');
    } else {
      assert !Publishing(w) && !Publishing(w');
      if Settled(w) {
        EventKeepsSettled(cfg, w, Act(t, choice));
      }
    }
  }

  lemma EventKeepsInv(cfg: Config, base: nat, w: World, e: Event)
    requires Inv(base, w) && ResumeOnly(w, e) && Apply(cfg, w, e).Some?
    ensures Inv(base, Apply(cfg, w, e).value)
  {
    var w' := Apply(cfg, w, e).value;
    if e.Act? {
      ActKeepsInv(cfg, base, w, e.thread, e.choice);
    } else {
      assert forall u <- w.threads :: u in w'.threads && w'.threads[u] == w.threads[u];
      assert forall u <- w'.threads :: u in w.threads || w'.threads[u].pc == Lock;
      if Publishing(w) {
        var u :| u in w.threads && w.threads[u].pc == MarkComplete;
        assert w'.threads[u].pc == MarkComplete;
      }
    }
  }

  ghost predicate ResumeRun(states: seq<World>, es: seq<Event>)
    requires |states| == |es| + 1
  {
    forall i | 0 <= i < |es| :: ResumeOnly(states[i], es[i])
  }

  /** Any number of callers waiting for the lock, on a row that exists. */
  ghost predicate Waiting(w: World) {
    w.store.row.Some? && forall t <- w.threads :: w.threads[t].pc == Lock
  }

  /** Any number of concurrent resumptions alone publish the job at most once, and not at all once it is settled. */
  lemma {:induction false} PublishedAtMostOnce(cfg: Config, states: seq<World>, es: seq<Event>)
    requires Path(cfg, states, es) && ResumeRun(states, es) && Waiting(states[0])
    ensures forall w <- states :: Inv(|states[0].store.published|, w)
                                  && |w.store.published| <= |states[0].store.published| + 1
    ensures Settled(states[0]) ==> forall w <- states :: Settled(w) && w.store.published == states[0].store.published
  {
    if es == [] {
      assert states == [states[0]];
    } else {
      var n := |es| - 1;
      var before := states[..n + 1];
      assert ResumeRun(before, es[..n]) by {
        assert forall i | 0 <= i < n :: ResumeOnly(states[i], es[i]);
      }
      PublishedAtMostOnce(cfg, before, es[..n]);
      assert states[n] in before;
      assert Apply(cfg, states[n], es[n]) == Some(states[n + 1]) && ResumeOnly(states[n], es[n]);
      EventKeepsInv(cfg, |states[0].store.published|, states[n], es[n]);
      if Settled(states[0]) {
        EventKeepsSettled(cfg, states[n], es[n]);
      }
      assert states == before + [states[n + 1]];
    }
  }
}
