/**
 When every claim is outlived by the work it covers, no job is left without a word:
 whatever a source has handed over can still be brought to an end by the sweeps.
 */
module JobCompletion {
  import opened Options
  import opened JobLifecycle
  import opened JobRepository
  import opened JobStranding
  import JobProgress
  import JobVerdicts

  /** From the start of a classification to the write that ends it. */
  predicate Classifying(pc: Pc) {
    pc.Classify? || pc.Create? || pc.ClaimProject? || pc.RejectDuplicate? || pc.Arbitrate? || pc.RecordError?
    || pc.Rescue? || pc.Decide?
  }

  /** Whoever classifies a claimed job does so before its claim runs out. */
  ghost predicate ClaimsHold(w: World) {
    forall t <- w.threads | Classifying(w.threads[t].pc) ::
      w.store.row.Some? && w.store.row.value.decision == Pending ==>
        w.store.row.value.retryAt.Some? && w.store.now < w.store.row.value.retryAt.value
  }

  /** The error entries apart, only arbitrations that accept write to the log without evaluating. */
  ghost predicate RescuesNotify(log: seq<Entry>) { forall e <- log :: e.rescue ==> e.judgement == Notify }

  predicate IsAccepted(s: Store) { s.row.Some? && s.row.value.decision == Accepted }

  /** Before the first verdict: what is started was accepted, and what is accepted has something to go by. */
  predicate RowOk(s: Store) {
    s.row.Some? ==>
      && (s.row.value.status != Unset ==> s.row.value.decision == Accepted)
      && (s.row.value.decision == Accepted ==> s.row.value.category.Some? || s.row.value.selection == Llm)
  }

  /** ... and what a caller relies on. */
  predicate CallerOk(s: Store, th: Thread) {
    && (th.kind != Source ==> s.row.Some? && s.row.value.decision != Undecided)
    && (Classifying(th.pc) && s.row.Some? ==>
          s.row.value.decision == Pending || (s.row.value.decision == Undecided && th.kind == Source))
    && (th.pc.Decide? && th.pc.accept ==> th.pc.plan.category.Some?)
    && (th.pc.Rescue? ==> th.pc.plan.category.Some?)
    && (th.pc == Window || th.pc == MarkStarted || !InProcess(th.pc) ==> IsAccepted(s))
    && !th.pc.Fallback? && !th.pc.Suppress?
  }

  ghost predicate OneClassifier(w: World) {
    forall t, u | t in w.threads && u in w.threads ::
      Classifying(w.threads[t].pc) && Classifying(w.threads[u].pc) ==> t == u
  }

  ghost predicate Inv(w: World) {
    && RescuesNotify(w.store.log)
    && (JobVerdicts.Verdicts(w.store.log) == 0 ==>
          RowOk(w.store) && OneClassifier(w) && forall t <- w.threads :: CallerOk(w.store, w.threads[t]))
  }

  // ---- one step ----

  /** With no verdict yet the log does not end in a rejection. */
  lemma NoRejectionYet(log: seq<Entry>)
    requires RescuesNotify(log) && JobVerdicts.Verdicts(log) == 0
    ensures LatestJudgement(log) != Some(DoNotNotify)
  {
    if log != [] {
      assert log[|log| - 1] in log;
    }
  }

  lemma ProcessKeepsOwn(cfg: Config, s: Store, th: Thread, choice: Choice)
    requires RowOk(s) && CallerOk(s, th) && JobProgress.ThreadInv(s, th)
    requires InProcess(th.pc) && ProcessStep(cfg, s, th.pc, choice).Some?
    ensures var (s', next) := ProcessStep(cfg, s, th.pc, choice).value;
            RowOk(s') && (next.At? ==> CallerOk(s', th.(pc := next.pc)))
  {
  }

  lemma ResumeKeepsOwn(cfg: Config, s: Store, th: Thread)
    requires RowOk(s) && CallerOk(s, th) && LatestJudgement(s.log) != Some(DoNotNotify)
    requires ResumeStep(cfg, s, th.pc).Some?
    ensures var (s', next) := ResumeStep(cfg, s, th.pc).value;
            RowOk(s') && (next.At? ==> CallerOk(s', th.(pc := next.pc)))
  {
  }

  lemma GuardKeepsOwn(s: Store, th: Thread, choice: Choice)
    requires RowOk(s) && CallerOk(s, th) && InGuard(th.pc) && GuardStep(s, th.pc, choice).Some?
    ensures var (s', next) := GuardStep(s, th.pc, choice).value;
            RowOk(s') && (next.At? ==> CallerOk(s', th.(pc := next.pc)))
  {
  }

  /** The step of a caller leaves its own part and the row's in order. */
  lemma OwnPart(cfg: Config, s: Store, th: Thread, choice: Choice)
    requires RescuesNotify(s.log) && JobVerdicts.Verdicts(s.log) == 0
    requires RowOk(s) && CallerOk(s, th) && JobProgress.ThreadInv(s, th) && Step(cfg, s, th.pc, choice).Some?
    ensures var (s', next) := Step(cfg, s, th.pc, choice).value;
            RowOk(s') && (next.At? ==> CallerOk(s', th.(pc := next.pc)))
  {
    if InProcess(th.pc) {
      ProcessKeepsOwn(cfg, s, th, choice);
    } else if InGuard(th.pc) {
      GuardKeepsOwn(s, th, choice);
    } else {
      NoRejectionYet(s.log);
      ResumeKeepsOwn(cfg, s, th);
    }
  }

  /** What a step may do to the decision: nothing, or end the one classification there is. */
  lemma DecisionMoves(cfg: Config, s: Store, th: Thread, choice: Choice)
    requires CallerOk(s, th) && Step(cfg, s, th.pc, choice).Some?
    ensures var s' := Step(cfg, s, th.pc, choice).value.0;
            && (s.row.Some? ==> s'.row.Some?)
            && (!Classifying(th.pc) ==>
                  (s'.row.Some? ==> s.row.Some? && s'.row.value.decision == s.row.value.decision))
            && (s.row.Some? && s'.row.value.decision == Undecided ==> s.row.value.decision == Undecided)
  {
    if InProcess(th.pc) {
      ProcessDecides(cfg, s, th, choice);
    } else if InGuard(th.pc) {
      GuardDecides(s, th.pc, choice);
    } else {
      ResumeDecides(cfg, s, th.pc);
    }
  }

  lemma ProcessDecides(cfg: Config, s: Store, th: Thread, choice: Choice)
    requires InProcess(th.pc) && ProcessStep(cfg, s, th.pc, choice).Some?
    ensures var s' := ProcessStep(cfg, s, th.pc, choice).value.0;
            && (s.row.Some? ==> s'.row.Some?)
            && (!Classifying(th.pc) ==>
                  (s'.row.Some? ==> s.row.Some? && s'.row.value.decision == s.row.value.decision))
            && (s.row.Some? && s'.row.value.decision == Undecided ==> s.row.value.decision == Undecided)
  {
  }

  lemma GuardDecides(s: Store, pc: Pc, choice: Choice)
    requires InGuard(pc) && GuardStep(s, pc, choice).Some?
    ensures var s' := GuardStep(s, pc, choice).value.0;
            && (s.row.Some? <==> s'.row.Some?)
            && (s.row.Some? ==> s'.row.value.decision == s.row.value.decision)
  {
  }

  lemma ResumeDecides(cfg: Config, s: Store, pc: Pc)
    requires !pc.Fallback? && ResumeStep(cfg, s, pc).Some?
    ensures var s' := ResumeStep(cfg, s, pc).value.0;
            && (s.row.Some? <==> s'.row.Some?)
            && (s.row.Some? ==> s'.row.value.decision == s.row.value.decision)
  {
  }

  /** The other callers' parts survive the step. */
  lemma OtherPart(cfg: Config, s: Store, th: Thread, choice: Choice, other: Thread)
    requires CallerOk(s, th) && CallerOk(s, other) && Step(cfg, s, th.pc, choice).Some?
    requires !(Classifying(th.pc) && Classifying(other.pc))
    requires JobProgress.ThreadInv(s, other)
    requires Classifying(other.pc) && s.row.None? ==> th.kind != Source
    ensures CallerOk(Step(cfg, s, th.pc, choice).value.0, other)
  {
    DecisionMoves(cfg, s, th, choice);
  }

  /** Nobody starts to classify while another does. */
  lemma OneStarts(cfg: Config, s: Store, th: Thread, choice: Choice, other: Thread)
    requires CallerOk(s, th) && CallerOk(s, other) && Step(cfg, s, th.pc, choice).Some?
    requires JobProgress.ThreadInv(s, th) && JobProgress.ThreadInv(s, other)
    requires !(th.kind == Source && other.kind == Source)
    requires Classifying(other.pc) && s.row.Some? && s.row.value.decision == Pending ==>
               s.row.value.retryAt.Some? && s.now < s.row.value.retryAt.value
    requires !Classifying(th.pc) && Classifying(other.pc)
    ensures var next := Step(cfg, s, th.pc, choice).value.1;
            next.At? ==> !Classifying(next.pc)
  {
  }

  lemma LogStaysInOrder(cfg: Config, s: Store, pc: Pc, choice: Choice)
    requires RescuesNotify(s.log) && Step(cfg, s, pc, choice).Some?
    ensures var s' := Step(cfg, s, pc, choice).value.0;
            RescuesNotify(s'.log) && JobVerdicts.Verdicts(s'.log) >= JobVerdicts.Verdicts(s.log)
  {
    var s' := Step(cfg, s, pc, choice).value.0;
    if s'.log != s.log {
      LogGrowsByOne(cfg, s, pc, choice);
      var e := s'.log[|s.log|];
      JobVerdicts.AppendVerdicts(s.log, e);
      assert forall f :: f in s'.log ==> f in s.log || f == e;
    }
  }

  lemma LogGrowsByOne(cfg: Config, s: Store, pc: Pc, choice: Choice)
    requires Step(cfg, s, pc, choice).Some?
    ensures var log := Step(cfg, s, pc, choice).value.0.log;
            log == s.log
            || (|log| == |s.log| + 1 && log == s.log + [log[|s.log|]]
                && (log[|s.log|].rescue ==> log[|s.log|].judgement == Notify))
  {
  }

  lemma ActKeepsInv(cfg: Config, w: World, t: int, choice: Choice)
    requires Inv(w) && JobProgress.Inv(w) && ClaimsHold(w)
    requires t in w.threads && Apply(cfg, w, Act(t, choice)).Some?
    ensures Inv(Apply(cfg, w, Act(t, choice)).value)
  {
    var s, th := w.store, w.threads[t];
    var w' := Apply(cfg, w, Act(t, choice)).value;
    LogStaysInOrder(cfg, s, th.pc, choice);
    if JobVerdicts.Verdicts(w'.store.log) == 0 {
      assert JobProgress.ThreadInv(s, th);
      OwnPart(cfg, s, th, choice);
      forall u | u in w'.threads && u != t
        ensures u in w.threads && w'.threads[u] == w.threads[u] && CallerOk(w'.store, w'.threads[u])
        ensures t in w'.threads && Classifying(w'.threads[t].pc) ==> !Classifying(w'.threads[u].pc)
      {
        OthersKept(cfg, w, t, choice, u);
      }
    }
  }

  lemma OthersKept(cfg: Config, w: World, t: int, choice: Choice, u: int)
    requires Inv(w) && JobProgress.Inv(w) && ClaimsHold(w) && JobVerdicts.Verdicts(w.store.log) == 0
    requires t in w.threads && u in w.threads && t != u && Step(cfg, w.store, w.threads[t].pc, choice).Some?
    ensures var (s', next) := Step(cfg, w.store, w.threads[t].pc, choice).value;
            && CallerOk(s', w.threads[u])
            && (next.At? && Classifying(next.pc) ==> !Classifying(w.threads[u].pc))
  {
    var th, other := w.threads[t], w.threads[u];
    assert JobProgress.ThreadInv(w.store, th) && JobProgress.ThreadInv(w.store, other);
    assert !(th.kind == Source && other.kind == Source);
    OtherPart(cfg, w.store, th, choice, other);
    if Classifying(other.pc) {
      OneStarts(cfg, w.store, th, choice, other);
    }
  }

  lemma EventKeepsInv(cfg: Config, w: World, e: Event)
    requires Inv(w) && JobProgress.Inv(w) && ClaimsHold(w) && JobProgress.Orderly(w, e) && Apply(cfg, w, e).Some?
    ensures Inv(Apply(cfg, w, e).value)
  {
    if e.Act? {
      ActKeepsInv(cfg, w, e.thread, e.choice);
    } else {
      var w' := Apply(cfg, w, e).value;
      forall u | u in w'.threads
        ensures u in w.threads ==> w'.threads[u] == w.threads[u]
        ensures u !in w.threads ==> !Classifying(w'.threads[u].pc)
      {
      }
    }
  }

  lemma {:induction false} InvOverRuns(cfg: Config, states: seq<World>, es: seq<Event>)
    requires Path(cfg, states, es) && Initial(states[0]) && JobProgress.OrderlyRun(states, es)
    requires forall w <- states :: ClaimsHold(w)
    ensures forall w <- states :: Inv(w)
  {
    JobProgress.NoStrandedJob(cfg, states, es);
    if es == [] {
      assert states == [states[0]];
    } else {
      var n := |es| - 1;
      var before := states[..n + 1];
      assert JobProgress.OrderlyRun(before, es[..n]) by {
        assert forall i | 0 <= i < n :: JobProgress.Orderly(states[i], es[i]);
      }
      InvOverRuns(cfg, before, es[..n]);
      assert states[n] in before && states[n] in states;
      assert Apply(cfg, states[n], es[n]) == Some(states[n + 1]) && JobProgress.Orderly(states[n], es[n]);
      EventKeepsInv(cfg, states[n], es[n]);
      assert states == before + [states[n + 1]];
    }
  }

  /** A log with an evaluated verdict, on punctual runs, ends in a verdict. */
  lemma VerdictStays(log: seq<Entry>)
    requires JobVerdicts.LogInv(log) && JobVerdicts.Verdicts(log) > 0
    ensures HasVerdict(log)
  {
    var judgement := log[|log| - 1].judgement;
    assert judgement == Notify || judgement == DoNotNotify || judgement == Error;
  }

  /**
   Main result: on orderly runs whose callers keep both kinds of claim, a job that a
   source has handed over and nobody works on is at its end, or some run of the
   sweeps brings it there.
   */
  lemma ReturnedJobCanFinish(cfg: Config, span: nat, gap: nat, states: seq<World>, es: seq<Event>, w: World)
    requires span + gap < GUARD_LEASE
    requires Path(cfg, states, es) && Initial(states[0]) && JobProgress.OrderlyRun(states, es)
    requires forall v <- states :: ClaimsHold(v) && JobVerdicts.Punctual(span, gap, v)
    requires w in states && w.done && w.threads == map[]
    ensures Finishes(cfg, w)
  {
    JobProgress.NoStrandedJob(cfg, states, es);
    InvOverRuns(cfg, states, es);
    JobVerdicts.OneVerdictPerJob(cfg, span, gap, states, es);
    assert JobProgress.Covered(w);
    if JobVerdicts.Verdicts(w.store.log) > 0 {
      VerdictStays(w.store.log);
    }
    FinishesIff(cfg, w);
  }
}
