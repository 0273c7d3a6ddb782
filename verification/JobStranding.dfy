/**
 What the retry sweeps can still do for a job that nobody is working on: exactly
 which rows some run of theirs brings to an end, and which they never touch.
 */
module JobStranding {
  import opened Options
  import opened JobLifecycle
  import opened JobProgress
  import opened JobRepository

  /** No source comes back. */
  predicate SweptOnly(e: Event) { !(e.Spawn? && e.kind == Source) }

  ghost predicate SweptRun(cfg: Config, states: seq<World>, es: seq<Event>) {
    Path(cfg, states, es) && forall e <- es :: SweptOnly(e)
  }

  predicate Terminal(row: Row) {
    row.status == Complete || row.status == Suppressed || (row.status == Unset && row.decision == Rejected)
  }

  predicate Ended(w: World) { w.store.row.Some? && Terminal(w.store.row.value) }

  /** Some run of the sweeps brings the job to an end. */
  ghost predicate Finishes(cfg: Config, w: World) {
    exists states, es :: FinishesBy(cfg, w, states, es)
  }

  ghost predicate FinishesBy(cfg: Config, w: World, states: seq<World>, es: seq<Event>) {
    SweptRun(cfg, states, es) && states[0] == w && Ended(states[|es|])
  }

  /** Started, but without a category, an LLM's selection or a verdict to go by. */
  predicate Wordless(cfg: Config, s: Store)
    requires s.row.Some?
  {
    var row := s.row.value;
    row.status == Started && cfg.guardOn && row.selection != Llm && row.category.None? && !HasVerdict(s.log)
  }

  /** Outside both queries without being terminal, or inside one with nothing to go by. */
  predicate Hopeless(cfg: Config, s: Store)
    requires s.row.Some?
  {
    !Good(s.row.value) || Wordless(cfg, s)
  }

  // ---- terminal and hopeless rows are never touched ----

  /** Where a sweep can be while it finds nothing to do. */
  predicate Idle(row: Row, pc: Pc) {
    && row.status != Unset
    && (pc.Read? || pc.Lock? || pc.Latest? || (row.status == Started && (pc.AllowRead? || pc.JudgementRead?)))
  }

  ghost predicate Untouched(w0: World, w: World)
    requires w0.store.row.Some?
  {
    && w.store.row == w0.store.row && w.store.published == w0.store.published && w.store.log == w0.store.log
    && forall t <- w.threads :: Idle(w0.store.row.value, w.threads[t].pc)
  }

  lemma IdleStep(cfg: Config, s: Store, pc: Pc, choice: Choice)
    requires s.row.Some? && (Terminal(s.row.value) || Hopeless(cfg, s))
    requires Idle(s.row.value, pc) && Step(cfg, s, pc, choice).Some?
    ensures var (s', next) := Step(cfg, s, pc, choice).value;
            s' == s && (next.At? ==> Idle(s.row.value, next.pc))
  {
  }

  lemma UntouchedStep(cfg: Config, w0: World, w: World, e: Event)
    requires w0.store.row.Some? && (Terminal(w0.store.row.value) || Hopeless(cfg, w0.store)) && Untouched(w0, w)
    requires SweptOnly(e) && Apply(cfg, w, e).Some?
    ensures Untouched(w0, Apply(cfg, w, e).value)
  {
    if e.Act? {
      IdleStep(cfg, w.store, w.threads[e.thread].pc, e.choice);
    }
  }

  /** However the sweeps run, row, log and stream of a terminal or hopeless job stay as they are. */
  lemma {:induction false} NeverTouched(cfg: Config, states: seq<World>, es: seq<Event>)
    requires SweptRun(cfg, states, es) && states[0].threads == map[] && states[0].store.row.Some?
    requires Terminal(states[0].store.row.value) || Hopeless(cfg, states[0].store)
    ensures forall w <- states :: Untouched(states[0], w)
  {
    if es == [] {
      assert states == [states[0]];
    } else {
      var n := |es| - 1;
      var before := states[..n + 1];
      assert forall k | 0 <= k < n :: before[k] == states[k] && es[..n][k] == es[k];
      assert forall e <- es[..n] :: e in es;
      NeverTouched(cfg, before, es[..n]);
      assert states[n] in before && es[n] in es;
      assert Apply(cfg, states[n], es[n]) == Some(states[n + 1]);
      UntouchedStep(cfg, states[0], states[n], es[n]);
      assert states == before + [states[n + 1]];
    }
  }

  // ---- every other row can be brought to an end ----

  lemma EndsHere(cfg: Config, w: World)
    requires Ended(w)
    ensures Finishes(cfg, w)
  {
    assert FinishesBy(cfg, w, [w], []);
  }

  lemma FinishesAfter(cfg: Config, w: World, e: Event)
    requires SweptOnly(e) && Apply(cfg, w, e).Some? && Finishes(cfg, Apply(cfg, w, e).value)
    ensures Finishes(cfg, w)
  {
    var w' := Apply(cfg, w, e).value;
    var states, es :| FinishesBy(cfg, w', states, es);
    var all, fs := [w] + states, [e] + es;
    forall i | 0 <= i < |fs| ensures Apply(cfg, all[i], fs[i]) == Some(all[i + 1]) {
      if i > 0 {
        assert all[i] == states[i - 1] && all[i + 1] == states[i] && fs[i] == es[i - 1];
      }
    }
    assert FinishesBy(cfg, w, all, fs);
  }

  function Caller(s: Store, done: bool, kind: Kind, pc: Pc): World { World(s, done, map[0 := Thread(kind, pc)]) }

  function Alone(s: Store, done: bool): World { World(s, done, map[]) }

  lemma GoesOn(cfg: Config, s: Store, done: bool, kind: Kind, pc: Pc, choice: Choice, s': Store, next: Pc)
    requires Step(cfg, s, pc, choice) == Some((s', At(next))) && Finishes(cfg, Caller(s', done, kind, next))
    ensures Finishes(cfg, Caller(s, done, kind, pc))
  {
    assert map[0 := Thread(kind, pc)][0 := Thread(kind, next)] == map[0 := Thread(kind, next)];
    FinishesAfter(cfg, Caller(s, done, kind, pc), Act(0, choice));
  }

  lemma Leaves(cfg: Config, s: Store, done: bool, kind: Kind, pc: Pc, choice: Choice, s': Store)
    requires kind != Source && Step(cfg, s, pc, choice) == Some((s', Returns)) && Finishes(cfg, Alone(s', done))
    ensures Finishes(cfg, Caller(s, done, kind, pc))
  {
    assert map[0 := Thread(kind, pc)] - {0} == map[];
    FinishesAfter(cfg, Caller(s, done, kind, pc), Act(0, choice));
  }

  // a job sent back to classification

  /** The decision at the end of it may be a rejection. */
  lemma DecideFinishes(cfg: Config, s: Store, done: bool, plan: Plan)
    requires s.row.Some? && s.row.value.status == Unset
    ensures Finishes(cfg, Caller(s, done, Sweep, Decide(plan, false)))
  {
    var s' := Update(s, s.row.value.(decision := Rejected, reason := OtherReason,
                                     category := plan.category, selection := plan.selection));
    EndsHere(cfg, Alone(s', done));
    Leaves(cfg, s, done, Sweep, Decide(plan, false), Go, s');
  }

  lemma ProjectFinishes(cfg: Config, s: Store, done: bool, fallback: bool)
    requires s.row.Some? && s.row.value.status == Unset
    ensures Finishes(cfg, Caller(s, done, Sweep, ClaimProject(MakePlan(NoCandidate, fallback))))
  {
    var plan := MakePlan(NoCandidate, fallback);
    DecideFinishes(cfg, s, done, plan);
    GoesOn(cfg, s, done, Sweep, ClaimProject(plan), Project(true), s, Decide(plan, false));
  }

  lemma ClassifyFinishes(cfg: Config, s: Store, done: bool, existing: Row)
    requires s.row.Some? && s.row.value.status == Unset
    ensures Finishes(cfg, Caller(s, done, Sweep, Classify(Some(existing))))
  {
    var fallback := IsFallback(Some(existing));
    ProjectFinishes(cfg, s, done, fallback);
    GoesOn(cfg, s, done, Sweep, Classify(Some(existing)), Classified(NoCandidate), s,
           ClaimProject(MakePlan(NoCandidate, fallback)));
  }

  lemma ReadFinishes(cfg: Config, s: Store, done: bool)
    requires s.row.Some? && s.row.value.status == Unset && s.row.value.decision == Pending
    requires MayClaimPending(s.row.value, s.now)
    ensures Finishes(cfg, Caller(s, done, Sweep, Read))
  {
    var row := s.row.value;
    var s' := Update(s, row.(retryAt := Some(s.now + CLASSIFICATION_LEASE)));
    ClassifyFinishes(cfg, s', done, row);
    GoesOn(cfg, s, done, Sweep, ClaimPending(row), Go, s', Classify(Some(row)));
    GoesOn(cfg, s, done, Sweep, Read, Go, s, ClaimPending(row));
  }

  function Later(s: Store, until: Option<int>): Store {
    if until.Some? && until.value > s.now then s.(now := until.value) else s
  }

  lemma FinishesLater(cfg: Config, s: Store, done: bool, until: Option<int>)
    requires Finishes(cfg, Alone(Later(s, until), done))
    ensures Finishes(cfg, Alone(s, done))
  {
    var seconds := Later(s, until).now - s.now;
    assert Apply(cfg, Alone(s, done), Tick(seconds)) == Some(Alone(Later(s, until), done));
    FinishesAfter(cfg, Alone(s, done), Tick(seconds));
  }

  /** Any row the classification sweep will match can still be decided. */
  lemma SweptFinishes(cfg: Config, s: Store, done: bool)
    requires s.row.Some? && s.row.value.status == Unset
    requires s.row.value.decision == Pending && s.row.value.reason != OtherReason
    ensures Finishes(cfg, Alone(s, done))
  {
    var due := Later(s, s.row.value.retryAt);
    ReadFinishes(cfg, due, done);
    assert Alone(due, done).threads[0 := Thread(Sweep, Read)] == map[0 := Thread(Sweep, Read)];
    FinishesAfter(cfg, Alone(due, done), Spawn(0, Sweep));
    FinishesLater(cfg, s, done, s.row.value.retryAt);
  }

  // a job whose notification has been started

  lemma CompleteFinishes(cfg: Config, s: Store, done: bool)
    requires s.row.Some?
    ensures Finishes(cfg, Caller(s, done, Notifier, MarkComplete))
  {
    var s' := Update(s, s.row.value.(status := Complete));
    EndsHere(cfg, Alone(s', done));
    Leaves(cfg, s, done, Notifier, MarkComplete, Go, s');
  }

  lemma PublishFinishes(cfg: Config, s: Store, done: bool)
    requires s.row.Some?
    ensures Finishes(cfg, Caller(s, done, Notifier, Publish))
  {
    var event := s.row.value.category;
    var s' := s.(published := s.published + [event]);
    CompleteFinishes(cfg, s', done);
    GoesOn(cfg, s, done, Notifier, Send(event), Go, s', MarkComplete);
    GoesOn(cfg, s, done, Notifier, Publish, Go, s, Send(event));
  }

  lemma AllowedFinishes(cfg: Config, s: Store, done: bool, view: Row)
    requires s.row.Some? && LatestJudgement(s.log) == Some(Notify)
    ensures Finishes(cfg, Caller(s, done, Notifier, AllowRead(view)))
  {
    PublishFinishes(cfg, s, done);
    GoesOn(cfg, s, done, Notifier, AllowRead(view), Go, s, Publish);
  }

  lemma SuppressFinishes(cfg: Config, s: Store, done: bool)
    requires s.row.Some?
    ensures Finishes(cfg, Caller(s, done, Notifier, Suppress))
  {
    var s' := Update(s, s.row.value.(status := Suppressed));
    EndsHere(cfg, Alone(s', done));
    Leaves(cfg, s, done, Notifier, Suppress, Go, s');
  }

  lemma FallbackFinishes(cfg: Config, s: Store, done: bool)
    requires s.row.Some?
    ensures Finishes(cfg, Caller(s, done, Notifier, Fallback))
  {
    var s' := Update(s, s.row.value.(decision := Pending, reason := GuardFallback, needsGemini := true,
                                     status := Unset, retryAt := Some(s.now + FALLBACK_INTERVAL)));
    SweptFinishes(cfg, s', done);
    Leaves(cfg, s, done, Notifier, Fallback, Go, s');
  }

  lemma RejectedFinishes(cfg: Config, s: Store, done: bool, view: Row)
    requires s.row.Some? && LatestJudgement(s.log) == Some(DoNotNotify)
    ensures Finishes(cfg, Caller(s, done, Notifier, AllowRead(view)))
  {
    var pc := if view.selection == TieBreak then Fallback else Suppress;
    if view.selection == TieBreak {
      FallbackFinishes(cfg, s, done);
    } else {
      SuppressFinishes(cfg, s, done);
    }
    GoesOn(cfg, s, done, Notifier, JudgementRead(view), Go, s, pc);
    GoesOn(cfg, s, done, Notifier, AllowRead(view), Go, s, JudgementRead(view));
  }

  lemma VerdictFinishes(cfg: Config, s: Store, done: bool, view: Row)
    requires s.row.Some? && HasVerdict(s.log)
    ensures Finishes(cfg, Caller(s, done, Notifier, AllowRead(view)))
  {
    if LatestJudgement(s.log) == Some(Notify) {
      AllowedFinishes(cfg, s, done, view);
    } else {
      RejectedFinishes(cfg, s, done, view);
    }
  }

  lemma ResolvedFinishes(cfg: Config, s: Store, done: bool, view: Row, resolved: Option<int>)
    requires s.row.Some? && LatestJudgement(s.log) == Some(Notify)
    ensures Finishes(cfg, Caller(s, done, Notifier, Resolved(view, resolved).pc))
  {
    if resolved.Some? && resolved != view.category {
      var s' := Update(s, s.row.value.(category := resolved, selection := Llm));
      AllowedFinishes(cfg, s', done, view);
      GoesOn(cfg, s, done, Notifier, Reclassify(view, resolved.value), Go, s', AllowRead(view));
    } else {
      AllowedFinishes(cfg, s, done, view);
    }
  }

  lemma EvaluationFinishes(cfg: Config, s: Store, done: bool, view: Row, from: int)
    requires s.row.Some?
    ensures Finishes(cfg, Caller(s, done, Notifier, GuardEval(view, from)))
  {
    var s' := s.(log := s.log + [Entry(Notify, Some(0), false)]);
    ResolvedFinishes(cfg, s', done, view, Some(0));
    GoesOn(cfg, s, done, Notifier, GuardEval(view, from), Judged(Notify, 0), s', Resolved(view, Some(0)).pc);
  }

  lemma ClaimFinishes(cfg: Config, s: Store, done: bool, view: Row)
    requires s.row.Some? && !HasVerdict(s.log) && MayClaimGuard(s.row.value, s.now)
    ensures Finishes(cfg, Caller(s, done, Notifier, GuardRead(view)))
  {
    var s' := Update(s, s.row.value.(lease := Some(s.now + GUARD_LEASE)));
    EvaluationFinishes(cfg, s', done, view, s.now);
    GoesOn(cfg, s, done, Notifier, GuardClaim(view, s.now, s.now), Go, s', GuardEval(view, s.now));
    GoesOn(cfg, s, done, Notifier, GuardLease(view, s.now), Go, s, GuardClaim(view, s.now, s.now));
    GoesOn(cfg, s, done, Notifier, GuardRead(view), Go, s, GuardLease(view, s.now));
  }

  lemma KnownFinishes(cfg: Config, s: Store, done: bool, view: Row)
    requires s.row.Some? && HasVerdict(s.log)
    ensures Finishes(cfg, Caller(s, done, Notifier, GuardRead(view)))
  {
    if LatestJudgement(s.log) == Some(Notify) {
      var resolved := s.log[|s.log| - 1].category;
      ResolvedFinishes(cfg, s, done, view, resolved);
      GoesOn(cfg, s, done, Notifier, GuardRead(view), Go, s, Resolved(view, resolved).pc);
    } else {
      VerdictFinishes(cfg, s, done, view);
      GoesOn(cfg, s, done, Notifier, GuardRead(view), Go, s, AllowRead(view));
    }
  }

  lemma LatestFinishes(cfg: Config, s: Store, done: bool)
    requires s.row.Some? && s.row.value.status == Started && !Wordless(cfg, s) && MayClaimGuard(s.row.value, s.now)
    ensures Finishes(cfg, Caller(s, done, Notifier, Latest))
  {
    var row := s.row.value;
    if row.selection == Llm || !cfg.guardOn {
      PublishFinishes(cfg, s, done);
      GoesOn(cfg, s, done, Notifier, Latest, Go, s, Publish);
    } else if row.category.None? {
      VerdictFinishes(cfg, s, done, row);
      GoesOn(cfg, s, done, Notifier, Latest, Go, s, AllowRead(row));
    } else {
      if HasVerdict(s.log) {
        KnownFinishes(cfg, s, done, row);
      } else {
        ClaimFinishes(cfg, s, done, row);
      }
      GoesOn(cfg, s, done, Notifier, Latest, Go, s, GuardRead(row));
    }
  }

  lemma StartedFinishes(cfg: Config, s: Store, done: bool)
    requires s.row.Some? && s.row.value.status == Started && !Wordless(cfg, s)
    ensures Finishes(cfg, Alone(s, done))
  {
    var due := Later(s, s.row.value.lease);
    LatestFinishes(cfg, due, done);
    GoesOn(cfg, due, done, Notifier, Lock, Go, due, Latest);
    assert Alone(due, done).threads[0 := Thread(Notifier, Lock)] == map[0 := Thread(Notifier, Lock)];
    FinishesAfter(cfg, Alone(due, done), Spawn(0, Notifier));
    FinishesLater(cfg, s, done, s.row.value.lease);
  }

  // ---- main results ----

  /** A job nobody works on can be brought to an end by the sweeps if and only if its row is not hopeless. */
  lemma FinishesIff(cfg: Config, w: World)
    requires w.threads == map[] && w.store.row.Some?
    ensures Finishes(cfg, w) <==> !Hopeless(cfg, w.store)
  {
    if Hopeless(cfg, w.store) {
      forall states, es | SweptRun(cfg, states, es) && states[0] == w ensures !Ended(states[|es|]) {
        NeverTouched(cfg, states, es);
        assert states[|es|] in states;
      }
    } else if Ended(w) {
      EndsHere(cfg, w);
    } else if w.store.row.value.status == Unset {
      SweptFinishes(cfg, w.store, w.done);
    } else {
      StartedFinishes(cfg, w.store, w.done);
    }
  }

  /** Beyond the sweeps: no run of theirs brings the job to an end. */
  ghost predicate Stranded(cfg: Config, w: World) {
    w.store.row.Some? && !Finishes(cfg, w)
  }

  /**
   When the last caller of a job dies in the window, what it leaves is stranded if
   and only if the notification had not been started, nor the job rejected or sent
   back to a sweep, by somebody else; or it had, and a late error has since taken
   the category and left no verdict.
   */
  lemma LoneWindowDeathIff(cfg: Config, w: World, t: int)
    requires w.store.row.Some? && t in w.threads && w.threads[t].pc == Window && w.threads.Keys == {t}
    ensures Stranded(cfg, Apply(cfg, w, Die(t)).value) <==> !Good(w.store.row.value) || Wordless(cfg, w.store)
  {
    var w' := Apply(cfg, w, Die(t)).value;
    assert w'.threads.Keys == {};
    assert w'.threads == map[];
    FinishesIff(cfg, w');
  }

  /** As its own decision leaves the row, that is: if and only if the status was still unset. */
  lemma AcceptedWindowDeathIff(cfg: Config, w: World, t: int)
    requires w.store.row.Some? && t in w.threads && w.threads[t].pc == Window && w.threads.Keys == {t}
    requires w.store.row.value.decision == Accepted && w.store.row.value.reason == OtherReason
    requires w.store.row.value.category.Some?
    ensures Stranded(cfg, Apply(cfg, w, Die(t)).value) <==> w.store.row.value.status == Unset
  {
    LoneWindowDeathIff(cfg, w, t);
  }

  /**
   When the last caller of a job records that its arbitration failed, that write
   strands the job if and only if the notification has been started meanwhile, the
   guard is on and it has left no verdict.
   */
  lemma LateErrorIff(cfg: Config, w: World, t: int)
    requires w.store.row.Some? && t in w.threads && w.threads[t].pc == RecordError && w.threads.Keys == {t}
    ensures Apply(cfg, w, Act(t, Go)).Some?
    ensures Stranded(cfg, Apply(cfg, w, Act(t, Go)).value) <==>
            w.store.row.value.status == Started && cfg.guardOn && !HasVerdict(w.store.log)
  {
    var w' := Apply(cfg, w, Act(t, Go)).value;
    assert w'.threads.Keys == {};
    assert w'.threads == map[];
    FinishesIff(cfg, w');
  }
}
