/** A job a source has handed over is terminal or within reach of a retry sweep. */
module JobProgress {
  import opened Options
  import opened JobLifecycle

  /** Terminal, or waiting where a sweep's query will find it. */
  predicate Good(row: Row) {
    row.decision == Rejected || row.status != Unset || (row.decision == Pending && row.reason != OtherReason)
  }

  /** Good, in the words of the two queries. */
  lemma GoodMeansTerminalOrSwept(row: Row)
    ensures Good(row) <==>
            row.decision == Rejected || row.status == Complete || row.status == Suppressed
            || InNotificationSweep(row)
            || (exists from :: SweptFrom(row, from))
  {
    if row.decision == Pending && row.reason != OtherReason {
      var from := if row.retryAt.Some? then row.retryAt.value else 0;
      assert SweptFrom(row, from);
    } else {
      forall from ensures !SweptFrom(row, from) {
        assert !InClassificationSweep(row, from);
      }
    }
  }

  /** The classification sweep's query returns the row from this time on. */
  ghost predicate SweptFrom(row: Row, from: int) {
    forall now :: now >= from ==> InClassificationSweep(row, now)
  }

  predicate Resuming(th: Thread) {
    th.kind == Source && !InProcess(th.pc)
  }

  ghost predicate SourceResuming(w: World) {
    exists t <- w.threads :: Resuming(w.threads[t])
  }

  /** Some caller is between its decision and the write that starts the notification. */
  ghost predicate InWindow(w: World) {
    exists t <- w.threads :: w.threads[t].pc == Window
  }

  ghost predicate Covered(w: World) {
    w.store.row.Some? && (Good(w.store.row.value) || InWindow(w))
  }

  /**
   The premises: one source caller at a time, and no caller dies in the window
   once the source has let go of the job or is resuming it.
   */
  ghost predicate Orderly(w: World, e: Event) {
    && (e.Spawn? && e.kind == Source ==> forall t <- w.threads :: w.threads[t].kind != Source)
    && (e.Die? && e.thread in w.threads && w.threads[e.thread].pc == Window ==> !w.done && !SourceResuming(w))
  }

  ghost predicate ThreadInv(s: Store, th: Thread) {
    && (th.pc.Create? || th.pc == Classify(None) ==> th.kind == Source && s.row.None?)
    && (th.kind != Source || !(th.pc.Read? || th.pc.Create? || th.pc == Classify(None)) ==> s.row.Some?)
    && !th.pc.Reread?
  }

  ghost predicate Inv(w: World) {
    && (forall t <- w.threads :: ThreadInv(w.store, w.threads[t]))
    && (forall t, u | t in w.threads && u in w.threads :: w.threads[t].kind == w.threads[u].kind == Source ==> t == u)
    && (w.done || SourceResuming(w) ==> Covered(w))
  }

  lemma StepKeepsRow(cfg: Config, s: Store, pc: Pc, choice: Choice)
    requires Step(cfg, s, pc, choice).Some? && !pc.Create?
    ensures Step(cfg, s, pc, choice).value.0.row.Some? <==> s.row.Some?
  {
  }

  /** A good row stays good, unless the step enters the window; leaving the window makes it good. */
  lemma StepKeepsGood(cfg: Config, s: Store, pc: Pc, choice: Choice)
    requires Step(cfg, s, pc, choice).Some? && s.row.Some? && !pc.Reread?
    ensures var (s', next) := Step(cfg, s, pc, choice).value;
            && s'.row.Some?
            && (Good(s.row.value) ==> Good(s'.row.value) || next == At(Window))
            && (pc == Window ==> Good(s'.row.value))
            && (InProcess(pc) && (next == Returns || (next.At? && !InProcess(next.pc))) ==> Good(s'.row.value))
  {
    if InProcess(pc) {
      ProcessKeepsGood(cfg, s, pc, choice);
    } else if InGuard(pc) {
      GuardKeepsGood(s, pc, choice);
    } else {
      ResumeKeepsGood(cfg, s, pc);
    }
  }

  lemma ProcessKeepsGood(cfg: Config, s: Store, pc: Pc, choice: Choice)
    requires InProcess(pc) && ProcessStep(cfg, s, pc, choice).Some? && s.row.Some? && !pc.Reread?
    ensures var (s', next) := ProcessStep(cfg, s, pc, choice).value;
            && s'.row.Some?
            && (Good(s.row.value) ==> Good(s'.row.value) || next == At(Window))
            && (pc == Window ==> Good(s'.row.value))
            && (next == Returns || (next.At? && !InProcess(next.pc)) ==> Good(s'.row.value))
  {
  }

  lemma GuardKeepsGood(s: Store, pc: Pc, choice: Choice)
    requires InGuard(pc) && GuardStep(s, pc, choice).Some? && s.row.Some?
    ensures var (s', _) := GuardStep(s, pc, choice).value;
            s'.row.Some? && (Good(s'.row.value) <==> Good(s.row.value))
  {
  }

  lemma ResumeKeepsGood(cfg: Config, s: Store, pc: Pc)
    requires ResumeStep(cfg, s, pc).Some? && s.row.Some?
    ensures var (s', _) := ResumeStep(cfg, s, pc).value;
            s'.row.Some? && (Good(s.row.value) ==> Good(s'.row.value))
  {
  }

  lemma StepKeepsThread(cfg: Config, s: Store, th: Thread, choice: Choice)
    requires ThreadInv(s, th) && Step(cfg, s, th.pc, choice).Some?
    ensures var (s', next) := Step(cfg, s, th.pc, choice).value;
            next.At? ==> ThreadInv(s', th.(pc := next.pc))
  {
    if InProcess(th.pc) {
      ProcessKeepsThread(cfg, s, th, choice);
    } else {
      StepKeepsRow(cfg, s, th.pc, choice);
      ResumptionGoesOn(cfg, s, th.pc, choice);
    }
  }

  lemma ProcessKeepsThread(cfg: Config, s: Store, th: Thread, choice: Choice)
    requires ThreadInv(s, th) && InProcess(th.pc) && ProcessStep(cfg, s, th.pc, choice).Some?
    ensures var (s', next) := ProcessStep(cfg, s, th.pc, choice).value;
            next.At? ==> ThreadInv(s', th.(pc := next.pc))
  {
  }

  lemma ResumptionGoesOn(cfg: Config, s: Store, pc: Pc, choice: Choice)
    requires !InProcess(pc) && Step(cfg, s, pc, choice).Some?
    ensures var next := Step(cfg, s, pc, choice).value.1; next.At? ==> !InProcess(next.pc)
  {
  }

  lemma ActKeepsCovered(cfg: Config, w: World, t: int, choice: Choice)
    requires Inv(w) && t in w.threads && Apply(cfg, w, Act(t, choice)).Some?
    ensures var w' := Apply(cfg, w, Act(t, choice)).value;
            w'.done || SourceResuming(w') ==> Covered(w')
  {
    var w' := Apply(cfg, w, Act(t, choice)).value;
    var pc := w.threads[t].pc;
    var (s', next) := Step(cfg, w.store, pc, choice).value;
    if w'.done || SourceResuming(w') {
      if w.store.row.None? {
        assert false;
      }
      StepKeepsGood(cfg, w.store, pc, choice);
      if next == At(Window) {
        assert w'.threads[t].pc == Window;
      } else if !Good(s'.row.value) {
        assert SourceResuming(w) || w.done by {
          if SourceResuming(w') {
            var u :| u in w'.threads && Resuming(w'.threads[u]);
            if u != t { assert Resuming(w.threads[u]); }
          }
        }
        assert Covered(w);
        var u :| u in w.threads && w.threads[u].pc == Window;
        assert u in w'.threads && w'.threads[u].pc == Window;
      }
    }
  }

  lemma ActKeepsInv(cfg: Config, w: World, t: int, choice: Choice)
    requires Inv(w) && t in w.threads && Apply(cfg, w, Act(t, choice)).Some?
    ensures Inv(Apply(cfg, w, Act(t, choice)).value)
  {
    var w' := Apply(cfg, w, Act(t, choice)).value;
    var pc := w.threads[t].pc;
    StepKeepsThread(cfg, w.store, w.threads[t], choice);
    if !pc.Create? {
      StepKeepsRow(cfg, w.store, pc, choice);
    }
    forall u <- w'.threads ensures ThreadInv(w'.store, w'.threads[u]) {
      assert u in w.threads && ThreadInv(w.store, w.threads[u]);
    }
    ActKeepsCovered(cfg, w, t, choice);
  }

  lemma DieKeepsInv(cfg: Config, w: World, t: int)
    requires Inv(w) && t in w.threads && Orderly(w, Die(t))
    ensures Inv(Apply(cfg, w, Die(t)).value)
  {
    var w' := Apply(cfg, w, Die(t)).value;
    assert forall u <- w'.threads :: u in w.threads && w'.threads[u] == w.threads[u];
    if w'.done || SourceResuming(w') {
      assert Covered(w) by {
        if SourceResuming(w') {
          var u :| u in w'.threads && Resuming(w'.threads[u]);
          assert Resuming(w.threads[u]);
        }
      }
      if !Good(w.store.row.value) {
        var u :| u in w.threads && w.threads[u].pc == Window;
        assert u != t;
        assert w'.threads[u].pc == Window;
      }
    }
  }

  lemma SpawnKeepsInv(cfg: Config, w: World, t: int, kind: Kind)
    requires Inv(w) && Orderly(w, Spawn(t, kind)) && Apply(cfg, w, Spawn(t, kind)).Some?
    ensures Inv(Apply(cfg, w, Spawn(t, kind)).value)
  {
    var w' := Apply(cfg, w, Spawn(t, kind)).value;
    assert !Resuming(w'.threads[t]);
    forall u | u in w'.threads ensures ThreadInv(w'.store, w'.threads[u]) {
      assert u != t ==> ThreadInv(w.store, w.threads[u]);
    }
    if SourceResuming(w') {
      var u :| u in w'.threads && Resuming(w'.threads[u]);
      assert u != t && Resuming(w.threads[u]);
    }
    if InWindow(w) {
      var u :| u in w.threads && w.threads[u].pc == Window;
      assert w'.threads[u].pc == Window;
    }
  }

  lemma TickKeepsInv(cfg: Config, w: World, seconds: nat)
    requires Inv(w)
    ensures Inv(Apply(cfg, w, Tick(seconds)).value)
  {
    var w' := Apply(cfg, w, Tick(seconds)).value;
    assert w'.threads == w.threads;
    assert forall t <- w'.threads :: ThreadInv(w.store, w.threads[t]);
  }

  ghost predicate OrderlyRun(states: seq<World>, es: seq<Event>)
    requires |states| == |es| + 1
  {
    forall i | 0 <= i < |es| :: Orderly(states[i], es[i])
  }

  /**
   In every orderly run: once a source's process_job has returned, the job is
   terminal, or a sweep's query matches it now or from some time on, or a caller
   is at this moment between its decision and starting the notification.
   */
  lemma {:induction false} NoStrandedJob(cfg: Config, states: seq<World>, es: seq<Event>)
    requires Path(cfg, states, es) && Initial(states[0]) && OrderlyRun(states, es)
    ensures forall w <- states :: Inv(w) && (w.done ==> Covered(w))
  {
    if es == [] {
      assert states == [states[0]];
    } else {
      var n := |es| - 1;
      var before := states[..n + 1];
      assert forall i | 0 <= i < n :: Orderly(before[i], es[..n][i]) by {
        assert forall i | 0 <= i < n :: Orderly(states[i], es[i]);
      }
      NoStrandedJob(cfg, before, es[..n]);
      assert states[n] in before;
      assert Apply(cfg, states[n], es[n]) == Some(states[n + 1]);
      assert Orderly(states[n], es[n]);
      match es[n] {
        case Spawn(t, kind) => SpawnKeepsInv(cfg, states[n], t, kind);
        case Act(t, choice) => ActKeepsInv(cfg, states[n], t, choice);
        case Die(t) => DieKeepsInv(cfg, states[n], t);
        case Tick(seconds) => TickKeepsInv(cfg, states[n], seconds);
      }
      assert states == before + [states[n + 1]];
    }
  }
}
