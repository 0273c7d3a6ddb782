/**
 process_job from its first read to its decision: what an uninterrupted caller makes of
 a new job, of one delivered again and of one swept up for another classification,
 and what no run can make of a job whose project is never won.
 */
module JobClassification {
  import opened Options
  import opened JobLifecycle
  import opened JobRepository

  // ---- a project that is never won ----

  ghost predicate NoProjectWon(es: seq<Event>) {
    forall e <- es :: e.Act? && e.choice.Project? ==> !e.choice.won
  }

  /** The steps from which nothing has been decided in favour of the job. */
  predicate Undetermined(pc: Pc) {
    pc.Read? || pc.Classify? || pc.Create? || pc.Reread? || pc.ClaimProject? || pc.RejectDuplicate?
  }

  ghost predicate NotTaken(w: World) {
    && w.store.published == [] && w.store.log == [] && !w.store.arbitrated
    && (w.store.row.Some? ==>
          w.store.row.value.status == Unset && w.store.row.value.decision in {Undecided, Rejected})
    && forall t <- w.threads :: Undetermined(w.threads[t].pc)
  }

  lemma StepKeepsNotTaken(cfg: Config, w: World, e: Event)
    requires NotTaken(w) && Apply(cfg, w, e).Some?
    requires e.Act? && e.choice.Project? ==> !e.choice.won
    ensures NotTaken(Apply(cfg, w, e).value)
  {
  }

  /**
   Main result: on every run on which the cross-source claim is never won, however many
   callers there are, the job is never accepted and nothing is judged or published.
   */
  lemma {:induction false} UnwonIsNeverTaken(cfg: Config, states: seq<World>, es: seq<Event>)
    requires Path(cfg, states, es) && Initial(states[0]) && NoProjectWon(es)
    ensures forall w <- states :: NotTaken(w)
  {
    if es == [] {
      assert states == [states[0]];
    } else {
      var n := |es| - 1;
      var before := states[..n + 1];
      assert forall e <- es[..n] :: e in es;
      assert forall k | 0 <= k < n :: before[k] == states[k] && es[..n][k] == es[k];
      UnwonIsNeverTaken(cfg, before, es[..n]);
      assert states[n] in before && es[n] in es;
      assert Apply(cfg, states[n], es[n]) == Some(states[n + 1]);
      StepKeepsNotTaken(cfg, states[n], es[n]);
      assert states == before + [states[n + 1]];
    }
  }

  // ---- one caller, uninterrupted ----

  /** What the classifier, the cross-source claim and the arbitration answer if they are asked. */
  datatype Answers = Answers(classification: Classification, won: bool, arbitration: Arbitration)

  function ChoiceAt(pc: Pc, a: Answers): Choice {
    if pc.Classify? then Classified(a.classification)
    else if pc.ClaimProject? then Project(a.won)
    else if pc.Arbitrate? then Arbitrated(a.arbitration)
    else Go
  }

  function StepsLeft(pc: Pc): nat {
    match pc
    case Read => 9
    case ClaimPending(_) => 8
    case Classify(_) => 7
    case Create(_) => 6
    case ClaimProject(_) => 5
    case Arbitrate(_) => 4
    case Rescue(_) => 3
    case Decide(_, _) => 2
    case _ => 1
  }

  /** process_job run to its end, or to where the notification is resumed. */
  function RunProcess(cfg: Config, s: Store, pc: Pc, a: Answers): (Store, Next)
    requires InProcess(pc)
    decreases StepsLeft(pc)
  {
    match ProcessStep(cfg, s, pc, ChoiceAt(pc, a))
    case None => (s, Raises)
    case Some((s', next)) =>
      if next.At? && InProcess(next.pc) then RunProcess(cfg, s', next.pc, a) else (s', next)
  }

  /** The LLM is asked: about candidates that compete, or once more about any after the guard said no. */
  predicate Asked(a: Answers, again: bool) {
    a.won && (a.classification.Contested? || (again && a.classification.Picked?))
  }

  /** The category the job is accepted in, if it is. */
  function AcceptedIn(a: Answers, again: bool): Option<int> {
    if Asked(a, again) then (if a.arbitration.Selects? then Some(a.arbitration.category) else None)
    else if a.won && a.classification.Picked? then Some(a.classification.category)
    else None
  }

  /** How that category was chosen. */
  function ChosenBy(a: Answers, again: bool): Selection {
    if Asked(a, again) then Llm else if a.classification.Picked? && a.classification.tie then TieBreak else Direct
  }

  /** The row as the decision leaves it. */
  ghost function DecidedRow(cfg: Config, base: Row, now: int, a: Answers, again: bool): Row {
    if AcceptedIn(a, again).Some? then
      base.(decision := Accepted, reason := OtherReason, status := Started, category := AcceptedIn(a, again),
            selection := ChosenBy(a, again))
    else if Asked(a, again) && a.arbitration.Fails? then
      base.(decision := Pending, reason := LlmError, category := None, selection := NoSelection,
            retryAt := Some(now + cfg.retryInterval))
    else if a.won then base.(decision := Rejected, reason := OtherReason, category := None, selection := NoSelection)
    else base.(decision := Rejected, reason := OtherReason)
  }

  /** Everything the classification of a job changes, and where its caller goes. */
  ghost predicate Outcome(cfg: Config, s: Store, base: Row, a: Answers, again: bool, end: (Store, Next)) {
    var accepted := AcceptedIn(a, again);
    && end.0 == s.(row := Some(DecidedRow(cfg, base, s.now, a, again)),
                   log := if again && accepted.Some? then s.log + [Entry(Notify, accepted, true)] else s.log,
                   arbitrated := s.arbitrated || (Asked(a, again) && accepted.Some?))
    && end.1 == if accepted.Some? then At(Lock)
                else if Asked(a, again) && a.arbitration.Fails? then Raises else Returns
  }

  /** From the cross-source claim on. */
  lemma ClaimedOutcome(cfg: Config, s: Store, base: Row, a: Answers, again: bool)
    requires s.row == Some(base) && base.status == Unset
    ensures Outcome(cfg, s, base, a, again, RunProcess(cfg, s, ClaimProject(MakePlan(a.classification, again)), a))
  {
    var plan := MakePlan(a.classification, again);
    if !a.won {
      assert RunProcess(cfg, s, ClaimProject(plan), a) == RunProcess(cfg, s, RejectDuplicate, a);
    } else {
      assert RunProcess(cfg, s, ClaimProject(plan), a) == RunProcess(cfg, s, AfterClaim(plan), a);
      if AfterClaim(plan).Decide? {
        DecideRun(cfg, s, base, plan, AfterClaim(plan).accept, a);
      } else {
        ArbitratedOutcome(cfg, s, base, plan, a);
      }
    }
  }

  lemma DecideRun(cfg: Config, s: Store, base: Row, plan: Plan, accept: bool, a: Answers)
    requires s.row == Some(base)
    ensures var decided := base.(decision := if accept then Accepted else Rejected, reason := OtherReason,
                                 category := plan.category, selection := plan.selection);
            RunProcess(cfg, s, Decide(plan, accept), a) ==
            if accept then (s.(row := Some(decided.(status := Started))), At(Lock))
            else (s.(row := Some(decided)), Returns)
  {
    if accept {
      var s' := ProcessStep(cfg, s, Decide(plan, accept), Go).value.0;
      assert RunProcess(cfg, s, Decide(plan, accept), a) == RunProcess(cfg, s', Window, a);
    }
  }

  lemma ArbitratedOutcome(cfg: Config, s: Store, base: Row, plan: Plan, a: Answers)
    requires s.row == Some(base) && base.status == Unset && Asked(a, plan.fallback)
    requires plan == MakePlan(a.classification, plan.fallback)
    ensures Outcome(cfg, s, base, a, plan.fallback, RunProcess(cfg, s, Arbitrate(plan), a))
  {
    match a.arbitration
    case Fails => assert RunProcess(cfg, s, Arbitrate(plan), a) == RunProcess(cfg, s, RecordError, a);
    case SelectsNone =>
      assert RunProcess(cfg, s, Arbitrate(plan), a) == RunProcess(cfg, s, Decide(plan, false), a);
      DecideRun(cfg, s, base, plan, false, a);
    case Selects(c) =>
      var chosen, asked := plan.(selection := Llm, category := Some(c)), s.(arbitrated := true);
      var logged := if plan.fallback then asked.(log := s.log + [Entry(Notify, Some(c), true)]) else asked;
      if plan.fallback {
        assert RunProcess(cfg, s, Arbitrate(plan), a) == RunProcess(cfg, asked, Rescue(chosen), a);
      }
      assert RunProcess(cfg, s, Arbitrate(plan), a) == RunProcess(cfg, logged, Decide(chosen, true), a);
      DecideRun(cfg, logged, base, chosen, true, a);
  }

  /** The row of a job nobody has seen before, as its creator writes it. */
  ghost function CreatedRow(c: Classification): Row {
    Row(Undecided, OtherReason, !c.NoCandidate? && c.needsGemini, Unset,
        if c.Picked? then Some(c.category) else None,
        if c.Picked? then (if c.tie then TieBreak else Direct) else NoSelection, None, None)
  }

  /**
   Main result, for a new job: it is accepted exactly when the project is won and the
   classifier picks a category or the LLM selects one among several; it waits for
   another classification exactly when that LLM fails; otherwise it is rejected.
   */
  lemma NewJobOutcome(cfg: Config, s: Store, a: Answers)
    requires s.row.None?
    ensures Outcome(cfg, s, CreatedRow(a.classification), a, false, RunProcess(cfg, s, Read, a))
    ensures var end := RunProcess(cfg, s, Read, a);
            && end.0.row.Some?
            && (end.0.row.value.decision == Accepted <==>
                  a.won && (a.classification.Picked? || (a.classification.Contested? && a.arbitration.Selects?)))
            && (end.0.row.value.decision == Pending <==>
                  a.won && a.classification.Contested? && a.arbitration.Fails?)
            && (end.0.row.value.decision == Rejected <==>
                  end.0.row.value.decision != Accepted && end.0.row.value.decision != Pending)
            && end.0.published == s.published && end.0.log == s.log
  {
    var base, plan := CreatedRow(a.classification), MakePlan(a.classification, false);
    var created := s.(row := Some(base));
    assert NewRow(plan) == base;
    assert RunProcess(cfg, s, Read, a) == RunProcess(cfg, s, Classify(None), a);
    assert RunProcess(cfg, s, Classify(None), a) == RunProcess(cfg, s, Create(plan), a);
    assert RunProcess(cfg, s, Create(plan), a) == RunProcess(cfg, created, ClaimProject(plan), a);
    ClaimedOutcome(cfg, created, base, a, false);
  }

  /**
   For a job that is due for another classification, or whose first one was cut short:
   the same, and after a rejection by the guard the LLM decides even what the
   classifier could, with the verdict in the log that lets the notification pass.
   */
  lemma UndecidedJobOutcome(cfg: Config, s: Store, r: Row, a: Answers)
    requires s.row == Some(r) && r.status == Unset
    requires r.decision == Undecided || (r.decision == Pending && (r.retryAt.None? || r.retryAt.value <= s.now))
    ensures Outcome(cfg, s, if r.decision == Pending then r.(retryAt := Some(s.now + 120)) else r, a,
                    r.needsGemini && r.reason == GuardFallback, RunProcess(cfg, s, Read, a))
  {
    var again := r.needsGemini && r.reason == GuardFallback;
    var base := if r.decision == Pending then r.(retryAt := Some(s.now + 120)) else r;
    var held := s.(row := Some(base));
    var plan := MakePlan(a.classification, again);
    if r.decision == Pending {
      assert RunProcess(cfg, s, Read, a) == RunProcess(cfg, s, ClaimPending(r), a);
    }
    assert RunProcess(cfg, s, Read, a) == RunProcess(cfg, held, Classify(Some(r)), a);
    assert RunProcess(cfg, held, Classify(Some(r)), a) == RunProcess(cfg, held, ClaimProject(plan), a);
    ClaimedOutcome(cfg, held, base, a, again);
  }

  /** A job delivered again once decided, or while it waits: nothing is classified, and only a start is recorded. */
  lemma DecidedJobOutcome(cfg: Config, s: Store, r: Row, a: Answers)
    requires s.row == Some(r)
    requires r.status != Unset || r.decision == Accepted || r.decision == Rejected
             || (r.decision == Pending && r.retryAt.Some? && r.retryAt.value > s.now)
    ensures RunProcess(cfg, s, Read, a) ==
            if r.status != Unset then (s, At(Lock))
            else if r.decision == Accepted then (s.(row := Some(r.(status := Started))), At(Lock))
            else (s, if r.decision == Pending then Raises else Returns)
  {
    if r.status == Unset && r.decision == Accepted {
      assert RunProcess(cfg, s, Read, a) == RunProcess(cfg, s, MarkStarted, a);
    } else if r.status == Unset && r.decision == Pending {
      assert RunProcess(cfg, s, Read, a) == RunProcess(cfg, s, ClaimPending(r), a);
    }
  }

  // ---- to the end ----

  /** process_job and, where it comes to that, the notification, all uninterrupted. */
  function RunJob(cfg: Config, s: Store, a: Answers, verdict: Choice, others: Arrivals): Store {
    var (s', next) := RunProcess(cfg, s, Read, a);
    if next == At(Lock) then RunAlone(cfg, s', Lock, verdict, others) else s'
  }

  /**
   Main result, from delivery to notification: of a new job one event is sent, in the
   category it was accepted in if the LLM chose that or there is no guard, and in the
   guard's if the guard says notify; otherwise none is.
   */
  lemma NewJobIsSent(cfg: Config, s: Store, a: Answers, judgement: Judgement, answer: int, others: Arrivals)
    requires s.row.None? && s.log == []
    ensures var accepted := AcceptedIn(a, false);
            RunJob(cfg, s, a, Judged(judgement, answer), others).published ==
            if accepted.None? then s.published
            else if a.classification.Contested? || !cfg.guardOn then s.published + [accepted]
            else if judgement == Notify then s.published + [Some(answer)]
            else s.published
  {
    NewJobOutcome(cfg, s, a);
    var end := RunProcess(cfg, s, Read, a);
    if AcceptedIn(a, false).Some? {
      var row := end.0.row.value;
      if row.selection == Llm || !cfg.guardOn {
        UnguardedResumption(cfg, end.0, Judged(judgement, answer), others);
      } else {
        FirstResumption(cfg, end.0, judgement, answer, others);
      }
    }
  }

  /**
   Main result, of a second chance: a tie-break that the guard turns down is sent after
   all, once it is due, exactly when the project is won again, the classifier still has
   a candidate and the LLM selects a category: in that category.
   */
  lemma SecondChance(cfg: Config, s: Store, view: Row, later: int, a: Answers, answer: int, verdict: Choice,
      others: Arrivals)
    requires cfg.guardOn && s.row == Some(view) && s.log == [] && verdict.Judged?
    requires view.status == Started && view.selection == TieBreak && view.category.Some?
    requires MayClaimGuard(view, s.now) && later >= s.now + 60
    ensures var turnedDown := RunAlone(cfg, s, Lock, Judged(DoNotNotify, answer), others);
            && turnedDown.published == s.published
            && var end := RunJob(cfg, turnedDown.(now := later), a, verdict, others);
               end.published ==
               if a.won && !a.classification.NoCandidate? && a.arbitration.Selects?
               then s.published + [Some(a.arbitration.category)] else s.published
  {
    FirstResumption(cfg, s, DoNotNotify, answer, others);
    var due := RunAlone(cfg, s, Lock, Judged(DoNotNotify, answer), others).(now := later);
    var row := due.row.value;
    assert row.decision == Pending && row.needsGemini && row.reason == GuardFallback;
    UndecidedJobOutcome(cfg, due, row, a);
    if AcceptedIn(a, true).Some? {
      UnguardedResumption(cfg, RunProcess(cfg, due, Read, a).0, verdict, others);
    }
  }
}
