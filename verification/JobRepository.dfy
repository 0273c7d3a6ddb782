/**
 The conditional updates of the jobs table, and the resumption of one job's
 notification as the code a caller executes when nobody interrupts it. The
 uninterrupted code is shown to be a run of the step machine.
 */
module JobRepository {
  import opened Options
  import opened JobLifecycle

  function Rank(pc: Pc): nat {
    match pc
    case Lock => 12
    case Latest => 11
    case GuardRead(_) => 10
    case GuardLease(_, _) => 9
    case GuardClaim(_, _, _) => 8
    case GuardWait(_, _) => 7
    case GuardEval(_, _) => 6
    case Reclassify(_, _) => 5
    case AllowRead(_) => 4
    case JudgementRead(_) => 3
    case Fallback => 2
    case Suppress => 2
    case Publish => 3
    case Send(_) => 2
    case MarkComplete => 1
    case _ => 0
  }

  function Tries(pc: Pc): nat {
    if pc.GuardWait? then pc.tries else 0
  }

  /** Each step of a resumption comes closer to its end. */
  lemma ResumptionEnds(cfg: Config, s: Store, pc: Pc, choice: Choice)
    requires Rank(pc) > 0 && Step(cfg, s, pc, choice).Some? && Step(cfg, s, pc, choice).value.1.At?
    ensures var pc' := Step(cfg, s, pc, choice).value.1.pc;
            0 < Rank(pc') && (Rank(pc') < Rank(pc) || (Rank(pc') == Rank(pc) && Tries(pc') < Tries(pc)))
  {
  }

  /** What other callers append to the log before the look that has 'tries' looks left. */
  type Arrivals = nat -> seq<Entry>

  function Seen(s: Store, pc: Pc, others: Arrivals): Store {
    if pc.GuardWait? && pc.tries > 0 then s.(log := s.log + others(pc.tries)) else s
  }

  /**
   The step machine from 'pc' with one caller, when an evaluation would answer
   'choice' and others write nothing but verdicts it may be waiting for.
   */
  function RunAlone(cfg: Config, s: Store, pc: Pc, choice: Choice, others: Arrivals): Store
    requires Rank(pc) > 0
    decreases Rank(pc), Tries(pc)
  {
    var seen := Seen(s, pc, others);
    match Step(cfg, seen, pc, choice)
    case None => seen
    case Some((s', next)) =>
      if !next.At? then s'
      else
        assert 0 < Rank(next.pc)
               && (Rank(next.pc) < Rank(pc) || (Rank(next.pc) == Rank(pc) && Tries(next.pc) < Tries(pc))) by {
          ResumptionEnds(cfg, seen, pc, choice);
        }
        RunAlone(cfg, s', next.pc, choice, others)
  }

  // ---- what the uninterrupted code computes ----

  /** From allow() on: publish, suppress, fall back, or leave the job waiting. */
  function Finish(s: Store, view: Row): Store
    requires s.row.Some?
  {
    var row := s.row.value;
    match LatestJudgement(s.log)
    case Some(Notify) => s.(published := s.published + [row.category], row := Some(row.(status := Complete)))
    case Some(DoNotNotify) =>
      if view.selection == TieBreak then
        s.(row := Some(row.(decision := Pending, reason := GuardFallback, needsGemini := true,
                            status := Unset, retryAt := Some(s.now + FALLBACK_INTERVAL))))
      else s.(row := Some(row.(status := Suppressed)))
    case _ => s
  }

  function Reclassified(s: Store, view: Row, resolved: Option<int>): Store
    requires s.row.Some?
  {
    if resolved.Some? && resolved != view.category
    then s.(row := Some(s.row.value.(category := resolved, selection := Llm)))
    else s
  }

  predicate HasVerdict(log: seq<Entry>) {
    LatestJudgement(log) == Some(Notify) || LatestJudgement(log) == Some(DoNotNotify)
  }

  /** The bounded wait: up to 'tries' looks, the first that finds a verdict ending it. */
  function WaitedLog(log: seq<Entry>, tries: nat, others: Arrivals): seq<Entry>
    decreases tries
  {
    if tries == 0 then log
    else
      var seen := log + others(tries);
      if HasVerdict(seen) then seen else WaitedLog(seen, tries - 1, others)
  }

  function Waited(s: Store, tries: nat, others: Arrivals): Store { s.(log := WaitedLog(s.log, tries, others)) }

  function Claimed(s: Store): Store
    requires s.row.Some?
  {
    s.(row := Some(s.row.value.(lease := Some(s.now + GUARD_LEASE))))
  }

  /** A fresh evaluation: its log entry, and the reclassification it may bring. */
  function Fresh(s: Store, view: Row, judgement: Judgement, answer: int): Store
    requires s.row.Some?
  {
    var category := if judgement == Notify then Some(answer) else None;
    Reclassified(s.(log := s.log + [Entry(judgement, category, false)]), view, category)
  }

  /** resolve_category's effect on the records. */
  function Evaluated(s: Store, view: Row, judgement: Judgement, answer: int, others: Arrivals): (r: Store)
    requires s.row.Some?
    ensures r.row.Some?
  {
    if LatestJudgement(s.log) == Some(Notify) then Reclassified(s, view, s.log[|s.log| - 1].category)
    else if LatestJudgement(s.log) == Some(DoNotNotify) then s
    else if MayClaimGuard(s.row.value, s.now) then Fresh(Claimed(s), view, judgement, answer)
    else Waited(s, GUARD_POLL_TRIES, others)
  }

  function Resumed(cfg: Config, s: Store, judgement: Judgement, answer: int, others: Arrivals): Store {
    if s.row.None? || s.row.value.status == Complete || s.row.value.status == Suppressed then s
    else
      var view := s.row.value;
      if view.selection == Llm || !cfg.guardOn then
        s.(published := s.published + [view.category], row := Some(view.(status := Complete)))
      else Finish(if view.category.Some? then Evaluated(s, view, judgement, answer, others) else s, view)
  }

  // ---- the machine computes it ----

  lemma PublishIsRun(cfg: Config, s: Store, choice: Choice, others: Arrivals)
    requires s.row.Some?
    ensures RunAlone(cfg, s, Publish, choice, others) ==
            s.(published := s.published + [s.row.value.category], row := Some(s.row.value.(status := Complete)))
  {
    var event := s.row.value.category;
    var sent := s.(published := s.published + [event]);
    assert RunAlone(cfg, s, Publish, choice, others) == RunAlone(cfg, s, Send(event), choice, others);
    assert RunAlone(cfg, s, Send(event), choice, others) == RunAlone(cfg, sent, MarkComplete, choice, others);
  }

  lemma RejectionIsRun(cfg: Config, s: Store, view: Row, choice: Choice, others: Arrivals)
    requires s.row.Some? && LatestJudgement(s.log) == Some(DoNotNotify)
    ensures RunAlone(cfg, s, JudgementRead(view), choice, others) == Finish(s, view)
  {
    var pc := if view.selection == TieBreak then Fallback else Suppress;
    assert RunAlone(cfg, s, JudgementRead(view), choice, others) == RunAlone(cfg, s, pc, choice, others);
  }

  lemma FinishIsRun(cfg: Config, s: Store, view: Row, choice: Choice, others: Arrivals)
    requires s.row.Some?
    ensures RunAlone(cfg, s, AllowRead(view), choice, others) == Finish(s, view)
  {
    if LatestJudgement(s.log) == Some(Notify) {
      PublishIsRun(cfg, s, choice, others);
    } else if LatestJudgement(s.log) == Some(DoNotNotify) {
      RejectionIsRun(cfg, s, view, choice, others);
    } else {
      assert RunAlone(cfg, s, AllowRead(view), choice, others) == RunAlone(cfg, s, JudgementRead(view), choice, others);
    }
  }

  lemma ReclassifiedIsRun(cfg: Config, s: Store, view: Row, resolved: Option<int>, choice: Choice, others: Arrivals)
    requires s.row.Some?
    ensures RunAlone(cfg, s, Resolved(view, resolved).pc, choice, others) ==
            RunAlone(cfg, Reclassified(s, view, resolved), AllowRead(view), choice, others)
  {
  }

  lemma {:induction false} WaitIsRun(cfg: Config, s: Store, view: Row, tries: nat, choice: Choice, others: Arrivals)
    ensures RunAlone(cfg, s, GuardWait(view, tries), choice, others) ==
            RunAlone(cfg, Waited(s, tries, others), AllowRead(view), choice, others)
    decreases tries
  {
    LookIsRun(cfg, s, view, tries, choice, others);
    if tries > 0 {
      var seen := s.(log := s.log + others(tries));
      if !HasVerdict(seen.log) {
        WaitIsRun(cfg, seen, view, tries - 1, choice, others);
      }
    }
  }

  lemma LookIsRun(cfg: Config, s: Store, view: Row, tries: nat, choice: Choice, others: Arrivals)
    ensures var seen := Seen(s, GuardWait(view, tries), others);
            RunAlone(cfg, s, GuardWait(view, tries), choice, others) ==
            RunAlone(cfg, seen, if tries == 0 || HasVerdict(seen.log) then AllowRead(view)
                else GuardWait(view, tries - 1),
                     choice, others)
  {
    var seen := Seen(s, GuardWait(view, tries), others);
    assert Step(cfg, seen, GuardWait(view, tries), choice) ==
           Some((seen, At(if tries == 0 || HasVerdict(seen.log) then AllowRead(view) else GuardWait(view, tries - 1))));
  }

  lemma KnownVerdictIsRun(cfg: Config, s: Store, view: Row, choice: Choice, others: Arrivals)
    requires s.row.Some? && HasVerdict(s.log)
    ensures var settled := if LatestJudgement(s.log) == Some(Notify) then s.log[|s.log| - 1].category else None;
            RunAlone(cfg, s, GuardRead(view), choice, others) ==
            RunAlone(cfg, Reclassified(s, view, settled), AllowRead(view), choice, others)
  {
    KnownVerdictStep(cfg, s, view, choice, others);
    if LatestJudgement(s.log) == Some(Notify) {
      ReclassifiedIsRun(cfg, s, view, s.log[|s.log| - 1].category, choice, others);
    }
  }

  lemma KnownVerdictStep(cfg: Config, s: Store, view: Row, choice: Choice, others: Arrivals)
    requires s.row.Some? && HasVerdict(s.log)
    ensures RunAlone(cfg, s, GuardRead(view), choice, others) ==
            RunAlone(cfg, s, if LatestJudgement(s.log) == Some(Notify)
                then Resolved(view, s.log[|s.log| - 1].category).pc
                             else AllowRead(view), choice, others)
  {
  }

  lemma EvaluationIsRun(cfg: Config, s: Store, view: Row, judgement: Judgement, answer: int, others: Arrivals)
    requires s.row.Some?
    ensures RunAlone(cfg, s, GuardEval(view, s.now), Judged(judgement, answer), others) ==
            RunAlone(cfg, Fresh(s, view, judgement, answer), AllowRead(view), Judged(judgement, answer), others)
  {
    var category := if judgement == Notify then Some(answer) else None;
    var judged := s.(log := s.log + [Entry(judgement, category, false)]);
    ReclassifiedIsRun(cfg, judged, view, category, Judged(judgement, answer), others);
  }

  lemma ClaimIsRun(cfg: Config, s: Store, view: Row, choice: Choice, others: Arrivals)
    requires s.row.Some? && !HasVerdict(s.log)
    ensures RunAlone(cfg, s, GuardRead(view), choice, others) ==
            if MayClaimGuard(s.row.value, s.now)
            then RunAlone(cfg, Claimed(s), GuardEval(view, s.now), choice, others)
            else RunAlone(cfg, s, GuardWait(view, GUARD_POLL_TRIES), choice, others)
  {
    assert RunAlone(cfg, s, GuardRead(view), choice, others) ==
           RunAlone(cfg, s, GuardLease(view, s.now), choice, others);
    assert RunAlone(cfg, s, GuardLease(view, s.now), choice, others) ==
           RunAlone(cfg, s, GuardClaim(view, s.now, s.now), choice, others);
  }

  lemma EvaluatedIsRun(cfg: Config, s: Store, view: Row, judgement: Judgement, answer: int, others: Arrivals)
    requires s.row.Some?
    ensures RunAlone(cfg, s, GuardRead(view), Judged(judgement, answer), others) ==
            RunAlone(cfg, Evaluated(s, view, judgement, answer, others), AllowRead(view), Judged(judgement, answer),
                others)
  {
    var choice := Judged(judgement, answer);
    if HasVerdict(s.log) {
      KnownVerdictIsRun(cfg, s, view, choice, others);
    } else {
      ClaimIsRun(cfg, s, view, choice, others);
      if MayClaimGuard(s.row.value, s.now) {
        EvaluationIsRun(cfg, Claimed(s), view, judgement, answer, others);
      } else {
        WaitIsRun(cfg, s, view, GUARD_POLL_TRIES, choice, others);
      }
    }
  }

  /** The step machine, run by one caller alone, computes what the sequential code computes. */
  lemma ResumedIsRun(cfg: Config, s: Store, judgement: Judgement, answer: int, others: Arrivals)
    ensures RunAlone(cfg, s, Lock, Judged(judgement, answer), others) == Resumed(cfg, s, judgement, answer, others)
  {
    var choice := Judged(judgement, answer);
    assert RunAlone(cfg, s, Lock, choice, others) == RunAlone(cfg, s, Latest, choice, others);
    if s.row.Some? && s.row.value.status != Complete && s.row.value.status != Suppressed {
      var view := s.row.value;
      LatestIsRun(cfg, s, view, choice, others);
      if view.selection == Llm || !cfg.guardOn {
        PublishIsRun(cfg, s, choice, others);
      } else if view.category.Some? {
        EvaluatedIsRun(cfg, s, view, judgement, answer, others);
        FinishIsRun(cfg, Evaluated(s, view, judgement, answer, others), view, choice, others);
      } else {
        FinishIsRun(cfg, s, view, choice, others);
      }
    }
  }

  lemma LatestIsRun(cfg: Config, s: Store, view: Row, choice: Choice, others: Arrivals)
    requires s.row == Some(view) && view.status != Complete && view.status != Suppressed
    ensures RunAlone(cfg, s, Latest, choice, others) ==
            RunAlone(cfg, s, if view.selection == Llm || !cfg.guardOn then Publish
                             else if view.category.Some? then GuardRead(view) else AllowRead(view), choice, others)
  {
  }

  /** Another's verdict arrives when 'left' looks are left, and nothing before. */
  ghost predicate ArrivesAt(others: Arrivals, left: nat, e: Entry) {
    1 <= left <= GUARD_POLL_TRIES && others(left) == [e] && forall k | left < k <= GUARD_POLL_TRIES :: others(k) == []
  }

  lemma {:induction false} WaitedFor(log: seq<Entry>, tries: nat, others: Arrivals, left: nat, e: Entry)
    requires ArrivesAt(others, left, e) && left <= tries <= GUARD_POLL_TRIES
    requires !HasVerdict(log) && e.judgement != Error
    ensures WaitedLog(log, tries, others) == log + [e]
    decreases tries
  {
    if tries > left {
      assert log + [] == log;
      WaitedFor(log, tries - 1, others, left, e);
    }
  }

  /**
   A caller that reads the verdict before claiming makes the row carry the
   verdict's category. One that lost the claim, and meets the same verdict at any
   of its looks, publishes the row with the category it had.
   */
  lemma WaiterKeepsItsCategory(cfg: Config, s: Store, view: Row, choice: Choice, others: Arrivals, left: nat,
      settled: int)
    requires s.row == Some(view) && !HasVerdict(s.log) && !MayClaimGuard(view, s.now)
    requires ArrivesAt(others, left, Entry(Notify, Some(settled), false))
    ensures var judged := s.(log := s.log + [Entry(Notify, Some(settled), false)]);
            var waited := RunAlone(cfg, s, GuardRead(view), choice, others);
            var read := RunAlone(cfg, judged, GuardRead(view), choice, others);
            && waited.published == s.published + [view.category] && read.published == s.published + [Some(settled)]
            && waited.row.Some? && waited.row.value.category == view.category
            && read.row.Some? && read.row.value.category == Some(settled)
  {
    var e := Entry(Notify, Some(settled), false);
    var judged := s.(log := s.log + [e]);
    ClaimIsRun(cfg, s, view, choice, others);
    WaitIsRun(cfg, s, view, GUARD_POLL_TRIES, choice, others);
    WaitedFor(s.log, GUARD_POLL_TRIES, others, left, e);
    FinishIsRun(cfg, judged, view, choice, others);
    KnownVerdictIsRun(cfg, judged, view, choice, others);
    FinishIsRun(cfg, Reclassified(judged, view, Some(settled)), view, choice, others);
  }

  class JobRecord {
    var row: Option<Row>
    var log: seq<Entry>
    var published: seq<Option<int>>
    var arbitrated: bool
    var now: int

    constructor (s: Store)
      ensures State() == s
    {
      row, log, published, arbitrated, now := s.row, s.log, s.published, s.arbitrated, s.now;
    }

    ghost function State(): Store
      reads this
    {
      Store(row, log, published, arbitrated, now)
    }

    method ClaimPendingClassification() returns (claimed: bool)
      modifies this`row
      ensures claimed <==> old(row).Some? && MayClaimPending(old(row).value, now)
      ensures row == if claimed then Some(old(row).value.(retryAt := Some(now + CLASSIFICATION_LEASE))) else old(row)
      ensures claimed ==> !MayClaimPending(row.value, now)
      ensures forall cfg, existing :: ProcessStep(cfg, old(State()), ClaimPending(existing), Go) ==
                                      Some((State(), if claimed then At(Classify(Some(existing))) else Raises))
    {
      claimed := false;
      if row.Some? && MayClaimPending(row.value, now) {
        row := Some(row.value.(retryAt := Some(now + CLASSIFICATION_LEASE)));
        claimed := true;
      }
    }

    method ClaimGuardEvaluation(from: int) returns (claimed: bool)
      modifies this`row
      ensures claimed <==> old(row).Some? && MayClaimGuard(old(row).value, now)
      ensures row == if claimed then Some(old(row).value.(lease := Some(from + GUARD_LEASE))) else old(row)
      ensures forall view, readAt ::
                GuardStep(old(State()), GuardClaim(view, readAt, from), Go) ==
                Some((State(), At(if claimed then GuardEval(view, from) else GuardWait(view, GUARD_POLL_TRIES))))
    {
      claimed := false;
      if row.Some? && MayClaimGuard(row.value, now) {
        row := Some(row.value.(lease := Some(from + GUARD_LEASE)));
        claimed := true;
      }
    }

    /** The losing caller's wait: look after every pause until a verdict is there. */
    method AwaitVerdict(others: Arrivals)
      modifies this`log
      ensures State() == Waited(old(State()), GUARD_POLL_TRIES, others)
    {
      var tries := GUARD_POLL_TRIES;
      ghost var end := WaitedLog(log, tries, others);
      while tries > 0
        invariant 0 <= tries <= GUARD_POLL_TRIES
        invariant WaitedLog(log, tries, others) == end
      {
        log := log + others(tries);
        if HasVerdict(log) {
          return;
        }
        tries := tries - 1;
      }
    }

    /** resolve_category: claim, evaluate, or wait for another evaluator's verdict. */
    method ResolveCategory(view: Row, judgement: Judgement, answer: int, others: Arrivals)
      requires row.Some?
      modifies this`row, this`log
      ensures State() == Evaluated(old(State()), view, judgement, answer, others)
    {
      var resolved: Option<int> := None;
      if LatestJudgement(log) == Some(Notify) {
        resolved := log[|log| - 1].category;
      } else if LatestJudgement(log) != Some(DoNotNotify) {
        var claimed := ClaimGuardEvaluation(now);
        if !claimed {
          AwaitVerdict(others);
          return;
        }
        if judgement == Notify {
          resolved := Some(answer);
        }
        log := log + [Entry(judgement, resolved, false)];
      }
      if resolved.Some? && resolved != view.category {
        row := Some(row.value.(category := resolved, selection := Llm));
      }
    }

    method PublishAndMarkComplete()
      requires row.Some?
      modifies this`row, this`published
      ensures row == Some(old(row).value.(status := Complete))
      ensures published == old(published) + [old(row).value.category]
    {
      published := published + [row.value.category];
      row := Some(row.value.(status := Complete));
    }

    /** _resume_pending_notifications, uninterrupted: exactly the step machine's run. */
    method Resume(cfg: Config, judgement: Judgement, answer: int, others: Arrivals)
      modifies this`row, this`log, this`published
      ensures State() == Resumed(cfg, old(State()), judgement, answer, others)
    {
      if row.None? || row.value.status == Complete || row.value.status == Suppressed {
        return;
      }
      var view := row.value;
      if view.selection == Llm || !cfg.guardOn {
        PublishAndMarkComplete();
        return;
      }
      if view.category.Some? {
        ResolveCategory(view, judgement, answer, others);
      }
      Conclude(view);
    }

    /** From allow() on. */
    method Conclude(view: Row)
      requires row.Some?
      modifies this`row, this`published
      ensures State() == Finish(old(State()), view)
    {
      if LatestJudgement(log) == Some(Notify) {
        PublishAndMarkComplete();
      } else if LatestJudgement(log) == Some(DoNotNotify) {
        if view.selection == TieBreak {
          row := Some(row.value.(decision := Pending, reason := GuardFallback, needsGemini := true,
                                 status := Unset, retryAt := Some(now + FALLBACK_INTERVAL)));
        } else {
          row := Some(row.value.(status := Suppressed));
        }
      }
    }
  }

  /**
   What the machine comes to when one caller resumes a job still waiting for its first
   verdict: a notification in the verdict's category, or for a tie-break another
   classification a minute later, or silence for good; after an error all is open still.
   */
  lemma FirstResumption(cfg: Config, s: Store, judgement: Judgement, answer: int, others: Arrivals)
    requires cfg.guardOn && s.row.Some? && s.row.value.status == Started && s.row.value.selection != Llm
    requires s.log == [] && s.row.value.category.Some? && MayClaimGuard(s.row.value, s.now)
    ensures RunAlone(cfg, s, Lock, Judged(judgement, answer), others) == FirstOutcome(s, judgement, answer)
  {
    ResumedIsRun(cfg, s, judgement, answer, others);
    var view := s.row.value;
    assert Evaluated(s, view, judgement, answer, others) == Fresh(Claimed(s), view, judgement, answer);
    FirstFinish(s, view, judgement, answer);
  }

  /** The row in full, for each verdict. */
  ghost function FirstOutcome(s: Store, judgement: Judgement, answer: int): Store
    requires s.row.Some?
  {
    var held := s.row.value.(lease := Some(s.now + 90));
    match judgement
    case Notify =>
      s.(log := [Entry(Notify, Some(answer), false)], published := s.published + [Some(answer)],
         row := Some(held.(status := Complete, category := Some(answer),
                           selection := if held.category == Some(answer) then held.selection else Llm)))
    case DoNotNotify =>
      s.(log := [Entry(DoNotNotify, None, false)],
         row := Some(if held.selection != TieBreak then held.(status := Suppressed)
                     else held.(status := Unset, decision := Pending, reason := GuardFallback, needsGemini := true,
                                retryAt := Some(s.now + 60))))
    case Error => s.(log := [Entry(Error, None, false)], row := Some(held))
  }

  lemma FirstFinish(s: Store, view: Row, judgement: Judgement, answer: int)
    requires s.row == Some(view) && s.log == [] && view.category.Some?
    ensures Finish(Fresh(Claimed(s), view, judgement, answer), view) == FirstOutcome(s, judgement, answer)
  {
  }

  /**
   A resumption that finds a verdict asks for no other: it notifies exactly if the verdict
   says so, in the verdict's category if it names one, and leaves the log as it was.
   */
  lemma LaterResumption(cfg: Config, s: Store, choice: Choice, others: Arrivals)
    requires cfg.guardOn && s.row.Some? && s.row.value.status == Started && s.row.value.selection != Llm
    requires s.row.value.category.Some? && HasVerdict(s.log) && choice.Judged?
    ensures var view, last := s.row.value, s.log[|s.log| - 1];
            var category := if last.category.Some? then last.category else view.category;
            RunAlone(cfg, s, Lock, choice, others) ==
            if last.judgement == Notify then
              s.(published := s.published + [category],
                 row := Some(view.(status := Complete, category := category,
                                   selection := if category == view.category then view.selection else Llm)))
            else if view.selection != TieBreak then s.(row := Some(view.(status := Suppressed)))
            else s.(row := Some(view.(status := Unset, decision := Pending, reason := GuardFallback,
                                      needsGemini := true, retryAt := Some(s.now + 60))))
  {
    ResumedIsRun(cfg, s, choice.judgement, choice.category, others);
  }

  /** Without the guard, or once an LLM has chosen the category, no verdict is asked for: the event goes out at once. */
  lemma UnguardedResumption(cfg: Config, s: Store, choice: Choice, others: Arrivals)
    requires s.row.Some? && s.row.value.status == Started && (s.row.value.selection == Llm || !cfg.guardOn)
    requires choice.Judged?
    ensures RunAlone(cfg, s, Lock, choice, others) ==
            s.(published := s.published + [s.row.value.category], row := Some(s.row.value.(status := Complete)))
  {
    ResumedIsRun(cfg, s, choice.judgement, choice.category, others);
  }

  /** What a verdict comes to for a caller that asked for it in vain and finds it written: the category stays. */
  ghost function WaiterOutcome(s: Store, view: Row, e: Entry): Store {
    var judged := s.(log := s.log + [e]);
    if e.judgement == Notify then
      judged.(published := s.published + [view.category], row := Some(view.(status := Complete)))
    else if view.selection != TieBreak then judged.(row := Some(view.(status := Suppressed)))
    else judged.(row := Some(view.(status := Unset, decision := Pending, reason := GuardFallback, needsGemini := true,
                                   retryAt := Some(s.now + 60))))
  }

  /** A row whose first verdict another caller is working on. */
  ghost predicate Contended(cfg: Config, s: Store, view: Row) {
    && cfg.guardOn && s.row == Some(view) && view.status == Started && view.selection != Llm
    && view.category.Some? && !HasVerdict(s.log) && view.lease.Some? && view.lease.value > s.now
  }

  /** A resumption while another holds the evaluation ends as the verdict says that arrives before one of its looks. */
  lemma WaitingResumption(cfg: Config, s: Store, view: Row, choice: Choice, others: Arrivals, left: nat, e: Entry)
    requires Contended(cfg, s, view) && choice.Judged? && ArrivesAt(others, left, e) && e.judgement != Error
    ensures RunAlone(cfg, s, Lock, choice, others) == WaiterOutcome(s, view, e)
  {
    ResumedIsRun(cfg, s, choice.judgement, choice.category, others);
    WaitedFor(s.log, GUARD_POLL_TRIES, others, left, e);
  }

  /** If none arrives before any of its twelve looks, it leaves everything as it was. */
  lemma VainResumption(cfg: Config, s: Store, view: Row, choice: Choice, others: Arrivals)
    requires Contended(cfg, s, view) && choice.Judged? && forall k: nat | 1 <= k <= 12 :: others(k) == []
    ensures RunAlone(cfg, s, Lock, choice, others) == s
  {
    ResumedIsRun(cfg, s, choice.judgement, choice.category, others);
    WaitedInVain(s.log, GUARD_POLL_TRIES, others);
  }

  lemma {:induction false} WaitedInVain(log: seq<Entry>, tries: nat, others: Arrivals)
    requires !HasVerdict(log) && forall k: nat | 1 <= k <= tries :: others(k) == []
    ensures WaitedLog(log, tries, others) == log
    decreases tries
  {
    if tries > 0 {
      assert log + [] == log;
      WaitedInVain(log, tries - 1, others);
    }
  }
}
