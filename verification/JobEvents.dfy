/**
 Which category an event carries. It is built from a fresh read of the row, so a
 caller that learnt the verdict without writing it down depends on one that has.
 */
module JobEvents {
  import opened Options
  import opened JobLifecycle
  import JobApproval
  import JobClaims
  import JobVerdicts

  predicate At(w: World, e: Event, pc: Pc) {
    e.Act? && e.thread in w.threads && w.threads[e.thread].pc == pc
  }

  /** A category is written down as the guard's verdict has it. */
  predicate Reclassifies(w: World, e: Event) {
    e.Act? && e.thread in w.threads && w.threads[e.thread].pc.Reclassify?
  }

  /** A classification writes the category, or takes it away. */
  predicate Classifies(w: World, e: Event) {
    && e.Act? && e.thread in w.threads
    && (w.threads[e.thread].pc.Create? || w.threads[e.thread].pc.RecordError? || w.threads[e.thread].pc.Decide?)
  }

  lemma ProcessKeepsCategory(cfg: Config, s: Store, pc: Pc, choice: Choice)
    requires s.row.Some? && ProcessStep(cfg, s, pc, choice).Some?
    requires !pc.Create? && !pc.RecordError? && !pc.Decide?
    ensures var s' := ProcessStep(cfg, s, pc, choice).value.0;
            s'.row.Some? && s'.row.value.category == s.row.value.category
  {
  }

  lemma ResumeKeepsCategory(cfg: Config, s: Store, pc: Pc)
    requires s.row.Some? && ResumeStep(cfg, s, pc).Some?
    ensures var s' := ResumeStep(cfg, s, pc).value.0;
            s'.row.Some? && s'.row.value.category == s.row.value.category
  {
  }

  lemma GuardWritesCategory(s: Store, pc: Pc, choice: Choice)
    requires s.row.Some? && InGuard(pc) && GuardStep(s, pc, choice).Some?
    ensures var s' := GuardStep(s, pc, choice).value.0;
            && s'.row.Some?
            && s'.row.value.category == if pc.Reclassify? then Some(pc.resolved) else s.row.value.category
  {
  }

  /** Classifications apart, only a reclassification changes the row's category. */
  lemma EventCategory(cfg: Config, w: World, e: Event)
    requires w.store.row.Some? && Apply(cfg, w, e).Some? && !Classifies(w, e)
    ensures var s' := Apply(cfg, w, e).value.store;
            && s'.row.Some?
            && s'.row.value.category ==
               if Reclassifies(w, e) then Some(w.threads[e.thread].pc.resolved) else w.store.row.value.category
  {
    if e.Act? {
      var pc := w.threads[e.thread].pc;
      if InProcess(pc) {
        ProcessKeepsCategory(cfg, w.store, pc, e.choice);
      } else if InGuard(pc) {
        GuardWritesCategory(w.store, pc, e.choice);
      } else {
        ResumeKeepsCategory(cfg, w.store, pc);
      }
    }
  }

  // ---- where a reclassification takes its category from ----

  ghost predicate Logged(log: seq<Entry>, category: int) {
    exists e <- log :: e.judgement == Notify && e.category == Some(category)
  }

  ghost predicate FromLog(w: World) {
    forall t <- w.threads :: w.threads[t].pc.Reclassify? ==> Logged(w.store.log, w.threads[t].pc.resolved)
  }

  lemma LoggedStays(log: seq<Entry>, log': seq<Entry>, category: int)
    requires log <= log' && Logged(log, category)
    ensures Logged(log', category)
  {
    var e :| e in log && e.judgement == Notify && e.category == Some(category);
    assert e in log';
  }

  lemma StepTakesFromLog(cfg: Config, s: Store, pc: Pc, choice: Choice)
    requires Step(cfg, s, pc, choice).Some?
    ensures var (s', next) := Step(cfg, s, pc, choice).value;
            next.At? && next.pc.Reclassify? ==> Logged(s'.log, next.pc.resolved)
  {
    var (s', next) := Step(cfg, s, pc, choice).value;
    if next.At? && next.pc.Reclassify? {
      assert pc.GuardRead? || pc.GuardEval?;
      assert s'.log[|s'.log| - 1] in s'.log;
    }
  }

  lemma EventTakesFromLog(cfg: Config, w: World, e: Event)
    requires FromLog(w) && Apply(cfg, w, e).Some?
    ensures FromLog(Apply(cfg, w, e).value) && w.store.log <= Apply(cfg, w, e).value.store.log
  {
    var w' := Apply(cfg, w, e).value;
    if e.Act? {
      JobApproval.StepGrows(cfg, w.store, w.threads[e.thread].pc, e.choice);
      StepTakesFromLog(cfg, w.store, w.threads[e.thread].pc, e.choice);
    }
    forall u | u in w'.threads && w'.threads[u].pc.Reclassify?
      ensures Logged(w'.store.log, w'.threads[u].pc.resolved)
    {
      if u in w.threads && w'.threads[u] == w.threads[u] {
        LoggedStays(w.store.log, w'.store.log, w.threads[u].pc.resolved);
      }
    }
  }

  lemma {:induction false} FromLogOverRuns(cfg: Config, states: seq<World>, es: seq<Event>, j: nat)
    requires Path(cfg, states, es) && Initial(states[0]) && j <= |es|
    ensures FromLog(states[j]) && forall k | 0 <= k <= j :: states[k].store.log <= states[j].store.log
    decreases j
  {
    if j > 0 {
      FromLogOverRuns(cfg, states, es, j - 1);
      assert Apply(cfg, states[j - 1], es[j - 1]) == Some(states[j]);
      EventTakesFromLog(cfg, states[j - 1], es[j - 1]);
    }
  }

  /** Without a rescue, one verdict means one category. */
  lemma OneCategory(log: seq<Entry>, category: int, settled: int)
    requires JobVerdicts.Verdicts(log) <= 1 && forall e <- log :: !e.rescue
    requires Logged(log, category) && Logged(log, settled)
    ensures category == settled
  {
    var e :| e in log && e.judgement == Notify && e.category == Some(category);
    var f :| f in log && f.judgement == Notify && f.category == Some(settled);
    if e != f {
      JobVerdicts.BothVerdictsCounted(log, e, f);
    }
  }

  // ---- the category of the event ----

  ghost predicate ReclassifiedBetween(states: seq<World>, es: seq<Event>, i: nat, k: nat)
    requires k <= |es| < |states|
  {
    exists m | i <= m < k :: Reclassifies(states[m], es[m])
  }

  /** A value that every marked step sets to the same thing and no other step changes. */
  lemma {:induction false} SetSince(values: seq<Option<int>>, marks: seq<bool>, i: nat, k: nat, settled: int)
    requires |values| == |marks| + 1 && i <= k <= |marks|
    requires forall m | i <= m < k :: values[m + 1] == if marks[m] then Some(settled) else values[m]
    ensures values[k] == if exists m | i <= m < k :: marks[m] then Some(settled) else values[i]
    decreases k
  {
    if i < k {
      SetSince(values, marks, i, k - 1, settled);
    }
  }

  /** Every reclassification from i on writes this category, and nothing else is written to it. */
  ghost predicate OnlyWrites(states: seq<World>, es: seq<Event>, i: nat, k: nat, settled: int)
    requires k <= |es| < |states|
  {
    forall m | i <= m < k ::
      && !Classifies(states[m], es[m])
      && (Reclassifies(states[m], es[m]) ==> states[m].threads[es[m].thread].pc.resolved == settled)
  }

  lemma CategoryStep(cfg: Config, w: World, e: Event, w': World, settled: int)
    requires w.store.row.Some? && Apply(cfg, w, e) == Some(w') && !Classifies(w, e)
    requires Reclassifies(w, e) ==> w.threads[e.thread].pc.resolved == settled
    ensures w'.store.row.Some?
    ensures w'.store.row.value.category == if Reclassifies(w, e) then Some(settled) else w.store.row.value.category
  {
    EventCategory(cfg, w, e);
  }

  function CategoryOf(w: World): Option<int> { if w.store.row.Some? then w.store.row.value.category else None }

  lemma CategoryAt(cfg: Config, states: seq<World>, es: seq<Event>, i: nat, m: nat, k: nat, settled: int)
    requires Path(cfg, states, es) && i <= m < k <= |es| && states[i].store.row.Some?
    requires OnlyWrites(states, es, i, k, settled)
    ensures CategoryOf(states[m + 1]) == if Reclassifies(states[m], es[m]) then Some(settled) else CategoryOf(states[m])
  {
    JobClaims.RowStays(cfg, states, es, i, m);
    assert Apply(cfg, states[m], es[m]) == Some(states[m + 1]);
    CategoryStep(cfg, states[m], es[m], states[m + 1], settled);
  }

  /** The row's category, from a moment i on, with no classification in between. */
  lemma CategorySince(cfg: Config, states: seq<World>, es: seq<Event>, i: nat, k: nat, settled: int)
    requires Path(cfg, states, es) && i <= k <= |es| && states[i].store.row.Some?
    requires OnlyWrites(states, es, i, k, settled)
    ensures CategoryOf(states[k]) ==
            if ReclassifiedBetween(states, es, i, k) then Some(settled) else CategoryOf(states[i])
  {
    var values := seq(|es| + 1, m requires 0 <= m <= |es| => CategoryOf(states[m]));
    var marks := seq(|es|, m requires 0 <= m < |es| => Reclassifies(states[m], es[m]));
    forall m | i <= m < k ensures values[m + 1] == if marks[m] then Some(settled) else values[m] {
      CategoryAt(cfg, states, es, i, m, k, settled);
    }
    SetSince(values, marks, i, k, settled);
    if ReclassifiedBetween(states, es, i, k) {
      var m :| i <= m < k && Reclassifies(states[m], es[m]);
      assert marks[m];
    }
  }

  /**
   On punctual runs: a caller that read its view of the row at i, whatever it then
   learnt and from whom, and publishes at j, sends the category of the guard's
   verdict if and only if its view already had it or some caller wrote it down in
   between.
   */
  lemma SendsVerdictIff(cfg: Config, span: nat, gap: nat, states: seq<World>, es: seq<Event>,
                        i: nat, j: nat, settled: int)
    requires span + gap < GUARD_LEASE && Path(cfg, states, es) && Initial(states[0])
    requires forall w <- states :: JobVerdicts.Punctual(span, gap, w)
    requires i < j < |es| && At(states[i], es[i], Latest) && At(states[j], es[j], Publish)
    requires es[i].thread == es[j].thread
    requires states[i].store.row.Some? && forall m | i <= m < j :: !Classifies(states[m], es[m])
    requires Logged(states[j].store.log, settled) && forall e <- states[j].store.log :: !e.rescue
    ensures es[j].thread in states[j + 1].threads && states[j + 1].threads[es[j].thread].pc.Send?
    ensures states[j + 1].threads[es[j].thread].pc.event == Some(settled) <==>
            states[i].store.row.value.category == Some(settled) || ReclassifiedBetween(states, es, i, j)
  {
    JobVerdicts.OneVerdictPerJob(cfg, span, gap, states, es);
    FromLogOverRuns(cfg, states, es, j);
    forall m | i <= m < j && Reclassifies(states[m], es[m])
      ensures states[m].threads[es[m].thread].pc.resolved == settled
    {
      FromLogOverRuns(cfg, states, es, m);
      LoggedStays(states[m].store.log, states[j].store.log, states[m].threads[es[m].thread].pc.resolved);
      assert states[j] in states;
      OneCategory(states[j].store.log, states[m].threads[es[m].thread].pc.resolved, settled);
    }
    CategorySince(cfg, states, es, i, j, settled);
    JobClaims.RowStays(cfg, states, es, i, j);
    assert Apply(cfg, states[j], es[j]) == Some(states[j + 1]);
  }
}
