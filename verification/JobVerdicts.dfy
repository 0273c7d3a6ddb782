/** At most one guard verdict per job, as long as an evaluation fits the lease. */
module JobVerdicts {
  import opened Options
  import opened JobLifecycle
  import opened JobApproval
  import opened JobWitnesses

  /** Entries an evaluation wrote and that are not errors. */
  function Verdicts(log: seq<Entry>): nat {
    if log == [] then 0
    else
      var e := log[|log| - 1];
      Verdicts(log[..|log| - 1]) + if !e.rescue && e.judgement != Error then 1 else 0
  }

  lemma AppendVerdicts(log: seq<Entry>, e: Entry)
    ensures Verdicts(log + [e]) == Verdicts(log) + if !e.rescue && e.judgement != Error then 1 else 0
  {
    assert (log + [e])[..|log|] == log;
  }

  lemma {:induction false} VerdictCounted(log: seq<Entry>, e: Entry)
    requires e in log && !e.rescue && e.judgement != Error
    ensures Verdicts(log) >= 1
  {
    var n := |log| - 1;
    if log[n] != e {
      assert log == log[..n] + [log[n]];
      VerdictCounted(log[..n], e);
    }
  }

  lemma {:induction false} BothVerdictsCounted(log: seq<Entry>, e: Entry, f: Entry)
    requires e in log && !e.rescue && e.judgement != Error
    requires f in log && !f.rescue && f.judgement != Error
    requires e != f
    ensures Verdicts(log) >= 2
  {
    var n := |log| - 1;
    assert log == log[..n] + [log[n]];
    if log[n] == e {
      VerdictCounted(log[..n], f);
    } else if log[n] == f {
      VerdictCounted(log[..n], e);
    } else {
      BothVerdictsCounted(log[..n], e, f);
    }
  }

  /** Within 'gap' from reading no verdict to the claim, and 'span' from computing the lease to the log row. */
  ghost predicate PunctualPc(span: int, gap: int, now: int, pc: Pc) {
    match pc
    case GuardLease(_, readAt) => now <= readAt + gap
    case GuardClaim(_, readAt, _) => now <= readAt + gap
    case GuardEval(_, from) => now <= from + span
    case _ => true
  }

  ghost predicate Punctual(span: int, gap: int, w: World) {
    forall t <- w.threads :: PunctualPc(span, gap, w.store.now, w.threads[t].pc)
  }

  ghost predicate PcInv(gap: int, s: Store, pc: Pc) {
    match pc
    case GuardLease(_, readAt) => readAt <= s.now && LateToClaim(gap, s, readAt)
    case GuardClaim(_, readAt, from) => readAt <= from <= s.now && LateToClaim(gap, s, readAt)
    case GuardEval(_, from) =>
      from <= s.now && s.row.Some? && s.row.value.lease == Some(from + GUARD_LEASE) && Verdicts(s.log) == 0
    case _ => true
  }

  /** Once a verdict is in, whoever read before it will still find the lease taken. */
  ghost predicate LateToClaim(gap: int, s: Store, readAt: int) {
    Verdicts(s.log) > 0 ==> s.row.Some? && s.row.value.lease.Some? && readAt + gap < s.row.value.lease.value
  }

  ghost predicate Inv(gap: int, w: World) {
    && LogInv(w.store.log)
    && (forall t <- w.threads :: PcInv(gap, w.store, w.threads[t].pc))
    && OneEvaluator(w)
  }

  ghost predicate OneEvaluator(w: World) {
    forall t, u | t in w.threads && u in w.threads :: w.threads[t].pc.GuardEval? && w.threads[u].pc.GuardEval?
        ==> t == u
  }

  ghost predicate LogInv(log: seq<Entry>) {
    Verdicts(log) <= 1 && (Verdicts(log) > 0 ==> LatestJudgement(log) != Some(Error))
  }

  predicate TouchesGuard(pc: Pc) {
    pc.GuardRead? || pc.GuardLease? || pc.GuardClaim? || pc.GuardEval?
  }

  /** The step adds no evaluated verdict, leaves the lease alone and does not lead into an evaluation. */
  ghost predicate LeavesGuard(s: Store, s': Store, next: Next) {
    && Verdicts(s'.log) == Verdicts(s.log) && LogInv(s'.log) && s'.now == s.now
    && (s.row.Some? ==> s'.row.Some? && s'.row.value.lease == s.row.value.lease)
    && (next.At? ==> !next.pc.GuardLease? && !next.pc.GuardClaim? && !next.pc.GuardEval?)
  }

  lemma OtherStepsLeaveGuard(cfg: Config, s: Store, pc: Pc, choice: Choice)
    requires Step(cfg, s, pc, choice).Some? && !TouchesGuard(pc) && LogInv(s.log)
    ensures LeavesGuard(s, Step(cfg, s, pc, choice).value.0, Step(cfg, s, pc, choice).value.1)
  {
    if pc.Rescue? {
      AppendVerdicts(s.log, Entry(Notify, pc.plan.category, true));
    } else if InProcess(pc) {
      ProcessLeavesGuard(cfg, s, pc, choice);
    } else if InGuard(pc) {
      WaitingLeavesGuard(s, pc, choice);
    } else {
      ResumeLeavesGuard(cfg, s, pc);
    }
  }

  lemma ProcessLeavesGuard(cfg: Config, s: Store, pc: Pc, choice: Choice)
    requires InProcess(pc) && ProcessStep(cfg, s, pc, choice).Some? && !pc.Rescue? && LogInv(s.log)
    ensures LeavesGuard(s, ProcessStep(cfg, s, pc, choice).value.0, ProcessStep(cfg, s, pc, choice).value.1)
  {
    var (s', _) := ProcessStep(cfg, s, pc, choice).value;
    assert s'.log == s.log;
  }

  lemma WaitingLeavesGuard(s: Store, pc: Pc, choice: Choice)
    requires InGuard(pc) && !TouchesGuard(pc) && GuardStep(s, pc, choice).Some? && LogInv(s.log)
    ensures LeavesGuard(s, GuardStep(s, pc, choice).value.0, GuardStep(s, pc, choice).value.1)
  {
  }

  lemma ResumeLeavesGuard(cfg: Config, s: Store, pc: Pc)
    requires ResumeStep(cfg, s, pc).Some? && LogInv(s.log)
    ensures LeavesGuard(s, ResumeStep(cfg, s, pc).value.0, ResumeStep(cfg, s, pc).value.1)
  {
    var (s', _) := ResumeStep(cfg, s, pc).value;
    assert s'.log == s.log;
  }

  /** The step's own caller keeps its part. */
  lemma OwnPart(span: nat, gap: nat, s: Store, pc: Pc, choice: Choice)
    requires span + gap < GUARD_LEASE && LogInv(s.log)
    requires TouchesGuard(pc) && PcInv(gap, s, pc) && PunctualPc(span, gap, s.now, pc)
    requires GuardStep(s, pc, choice).Some?
    ensures var (s', next) := GuardStep(s, pc, choice).value;
            LogInv(s'.log) && s'.now == s.now && (next.At? ==> PcInv(gap, s', next.pc))
  {
    if pc.GuardEval? {
      OwnEvaluation(gap, s, pc, choice);
    }
  }

  lemma OwnEvaluation(gap: nat, s: Store, pc: Pc, choice: Choice)
    requires pc.GuardEval? && PcInv(gap, s, pc) && GuardStep(s, pc, choice).Some?
    ensures var (s', next) := GuardStep(s, pc, choice).value;
            LogInv(s'.log) && s'.now == s.now && (next.At? ==> PcInv(gap, s', next.pc))
  {
    FirstVerdict(s.log, Entry(choice.judgement, if choice.judgement == Notify then Some(choice.category)
        else None, false));
  }

  lemma FirstVerdict(log: seq<Entry>, e: Entry)
    requires Verdicts(log) == 0 && !e.rescue
    ensures LogInv(log + [e])
  {
    AppendVerdicts(log, e);
  }

  /** A claim succeeds only when nobody is evaluating. */
  lemma ClaimExcludes(span: nat, gap: nat, s: Store, pc: Pc, choice: Choice, other: Pc)
    requires span + gap < GUARD_LEASE && other.GuardEval?
    requires PcInv(gap, s, other) && PunctualPc(span, gap, s.now, other)
    requires pc.GuardClaim? && GuardStep(s, pc, choice).Some?
    ensures GuardStep(s, pc, choice).value == (s, At(GuardWait(pc.view, GUARD_POLL_TRIES)))
  {
  }

  /** Another caller's part survives the step. */
  lemma OtherPart(span: nat, gap: nat, s: Store, pc: Pc, choice: Choice, other: Pc)
    requires span + gap < GUARD_LEASE && LogInv(s.log)
    requires TouchesGuard(pc) && PcInv(gap, s, pc) && PunctualPc(span, gap, s.now, pc)
    requires PcInv(gap, s, other) && PunctualPc(span, gap, s.now, other)
    requires !(pc.GuardEval? && other.GuardEval?)
    requires GuardStep(s, pc, choice).Some?
    ensures PcInv(gap, GuardStep(s, pc, choice).value.0, other)
  {
    if pc.GuardEval? {
      AppendVerdicts(s.log,
          Entry(choice.judgement, if choice.judgement == Notify then Some(choice.category) else None, false));
    } else if pc.GuardClaim? && other.GuardEval? {
      ClaimExcludes(span, gap, s, pc, choice, other);
    }
  }

  lemma CommitKeepsInv(gap: int, w: World, t: int, s': Store, next: Next)
    requires Inv(gap, w) && t in w.threads && LogInv(s'.log)
    requires next.At? ==> PcInv(gap, s', next.pc)
    requires forall u <- w.threads | u != t :: PcInv(gap, s', w.threads[u].pc)
    requires next.At? && next.pc.GuardEval? ==> forall u <- w.threads | u != t :: !w.threads[u].pc.GuardEval?
    ensures Inv(gap, Commit(w, t, s', next))
  {
    var w' := Commit(w, t, s', next);
    assert forall u <- w'.threads | u != t :: u in w.threads && w'.threads[u] == w.threads[u];
  }

  lemma GuardActKeepsInv(span: nat, gap: nat, w: World, t: int, choice: Choice)
    requires span + gap < GUARD_LEASE
    requires Inv(gap, w) && Punctual(span, gap, w)
    requires t in w.threads && TouchesGuard(w.threads[t].pc) && GuardStep(w.store, w.threads[t].pc, choice).Some?
    ensures var (s', next) := GuardStep(w.store, w.threads[t].pc, choice).value;
            Inv(gap, Commit(w, t, s', next))
  {
    var s, pc := w.store, w.threads[t].pc;
    var (s', next) := GuardStep(s, pc, choice).value;
    assert PcInv(gap, s, pc) && PunctualPc(span, gap, s.now, pc);
    OwnPart(span, gap, s, pc, choice);
    forall u <- w.threads | u != t
      ensures PcInv(gap, s', w.threads[u].pc)
      ensures next.At? && next.pc.GuardEval? ==> !w.threads[u].pc.GuardEval?
    {
      var other := w.threads[u].pc;
      assert PcInv(gap, s, other) && PunctualPc(span, gap, s.now, other);
      OtherPart(span, gap, s, pc, choice, other);
      if other.GuardEval? && pc.GuardClaim? {
        ClaimExcludes(span, gap, s, pc, choice, other);
      }
    }
    CommitKeepsInv(gap, w, t, s', next);
  }

  lemma OtherActKeepsInv(cfg: Config, gap: int, w: World, t: int, choice: Choice)
    requires Inv(gap, w) && t in w.threads && !TouchesGuard(w.threads[t].pc)
    requires Step(cfg, w.store, w.threads[t].pc, choice).Some?
    ensures var (s', next) := Step(cfg, w.store, w.threads[t].pc, choice).value;
            Inv(gap, Commit(w, t, s', next))
  {
    var (s', next) := Step(cfg, w.store, w.threads[t].pc, choice).value;
    OtherStepsLeaveGuard(cfg, w.store, w.threads[t].pc, choice);
    forall u <- w.threads | u != t ensures PcInv(gap, s', w.threads[u].pc) {
      assert PcInv(gap, w.store, w.threads[u].pc);
    }
    CommitKeepsInv(gap, w, t, s', next);
  }

  lemma ActKeepsInv(cfg: Config, span: nat, gap: nat, w: World, t: int, choice: Choice)
    requires span + gap < GUARD_LEASE
    requires Inv(gap, w) && Punctual(span, gap, w)
    requires t in w.threads && Apply(cfg, w, Act(t, choice)).Some?
    ensures Inv(gap, Apply(cfg, w, Act(t, choice)).value)
  {
    if TouchesGuard(w.threads[t].pc) {
      GuardActKeepsInv(span, gap, w, t, choice);
    } else {
      OtherActKeepsInv(cfg, gap, w, t, choice);
    }
  }

  lemma EventKeepsInv(cfg: Config, span: nat, gap: nat, w: World, e: Event)
    requires span + gap < GUARD_LEASE
    requires Inv(gap, w) && Punctual(span, gap, w) && Apply(cfg, w, e).Some?
    ensures Inv(gap, Apply(cfg, w, e).value)
  {
    if e.Act? {
      ActKeepsInv(cfg, span, gap, w, e.thread, e.choice);
    } else {
      OtherEventsKeepInv(cfg, gap, w, e);
    }
  }

  /** A caller that comes, one that goes, and time. */
  lemma OtherEventsKeepInv(cfg: Config, gap: nat, w: World, e: Event)
    requires Inv(gap, w) && !e.Act? && Apply(cfg, w, e).Some?
    ensures Inv(gap, Apply(cfg, w, e).value)
  {
    var w' := Apply(cfg, w, e).value;
    forall u | u in w'.threads
      ensures PcInv(gap, w'.store, w'.threads[u].pc)
      ensures u in w.threads ==> w'.threads[u] == w.threads[u]
      ensures u !in w.threads ==> !w'.threads[u].pc.GuardEval?
    {
      if u in w.threads {
        assert PcInv(gap, w.store, w.threads[u].pc);
      }
    }
  }

  /**
   In every run whose callers keep their time, evaluations of the job never overlap
   and at most one of them leaves a verdict.
   */
  lemma {:induction false} OneVerdictPerJob(cfg: Config, span: nat, gap: nat, states: seq<World>, es: seq<Event>)
    requires span + gap < GUARD_LEASE
    requires Path(cfg, states, es) && Initial(states[0])
    requires forall w <- states :: Punctual(span, gap, w)
    ensures forall w <- states :: Inv(gap, w) && Verdicts(w.store.log) <= 1 && OneEvaluator(w)
  {
    if es == [] {
      assert states == [states[0]];
    } else {
      var n := |es| - 1;
      var before := states[..n + 1];
      OneVerdictPerJob(cfg, span, gap, before, es[..n]);
      assert states[n] in before && states[n] in states;
      assert Apply(cfg, states[n], es[n]) == Some(states[n + 1]);
      EventKeepsInv(cfg, span, gap, states[n], es[n]);
      assert states == before + [states[n + 1]];
    }
  }

  /** So a rejection by the guard is only ever overridden by an accepting arbitration. */
  lemma RejectionStands(cfg: Config, span: nat, gap: nat, states: seq<World>, es: seq<Event>, w: World)
    requires cfg.guardOn && span + gap < GUARD_LEASE
    requires Path(cfg, states, es) && Initial(states[0])
    requires forall w <- states :: Punctual(span, gap, w)
    requires w in states && w.store.published != []
    requires exists e <- w.store.log :: e.judgement == DoNotNotify && !e.rescue
    ensures w.store.arbitrated
  {
    OneVerdictPerJob(cfg, span, gap, states, es);
    ApprovedBeforePublished(cfg, states, es);
    if !w.store.arbitrated {
      var e :| e in w.store.log && e.judgement == DoNotNotify && !e.rescue;
      var f :| f in w.store.log && f.judgement == Notify && !f.rescue;
      BothVerdictsCounted(w.store.log, e, f);
    }
  }

  // ---- the margin is needed: with span + gap >= 90 two callers can disagree ----

  ghost predicate AllPunctual(span: int, gap: int, states: seq<World>) {
    forall w <- states :: Punctual(span, gap, w)
  }

  lemma JoinTimed(cfg: Config, span: int, gap: int, p: seq<World>, es: seq<Event>, q: seq<World>, fs: seq<Event>)
    requires Path(cfg, p, es) && Path(cfg, q, fs) && p[|es|] == q[0]
    requires AllPunctual(span, gap, p) && AllPunctual(span, gap, q)
    ensures Path(cfg, p + q[1..], es + fs) && AllPunctual(span, gap, p + q[1..])
    ensures (p + q[1..])[0] == p[0] && (p + q[1..])[|es| + |fs|] == q[|fs|]
  {
    Join(cfg, p, es, q, fs);
    forall w <- p + q[1..] ensures Punctual(span, gap, w) {
      assert w in p || w in q;
    }
  }

  lemma TimedPath(cfg: Config, span: int, gap: int, stores: seq<Store>, pcs: seq<Pc>, choices: seq<Choice>,
                  t: int, kind: Kind, others: map<int, Thread>)
    returns (states: seq<World>, es: seq<Event>)
    requires Alone(cfg, stores, pcs, choices) && t !in others
    requires forall i | 0 <= i < |pcs| :: PunctualPc(span, gap, stores[i].now, pcs[i])
    requires forall i, u | 0 <= i < |pcs| && u in others :: PunctualPc(span, gap, stores[i].now, others[u].pc)
    ensures Path(cfg, states, es) && |es| == |choices| && AllPunctual(span, gap, states)
    ensures states[0] == With(others, stores[0], false, t, Thread(kind, pcs[0]))
    ensures states[|es|] == With(others, stores[|es|], false, t, Thread(kind, pcs[|es|]))
  {
    states, es := AlonePath(cfg, stores, pcs, choices, false, t, kind, others);
    forall w <- states ensures Punctual(span, gap, w) {
      var i :| 0 <= i < |states| && states[i] == w;
      assert w == With(others, stores[i], false, t, Thread(kind, pcs[i]));
    }
  }

  lemma OneTimed(cfg: Config, span: int, gap: int, w: World, e: Event, w': World)
    requires Apply(cfg, w, e) == Some(w') && Punctual(span, gap, w) && Punctual(span, gap, w')
    ensures Path(cfg, [w, w'], [e]) && AllPunctual(span, gap, [w, w'])
  {
  }

  const RECLAIMED := PENDING_ROW.(lease := Some(180))
  const FIRST := Thread(Source, GuardEval(PENDING_ROW, 0))
  const CONFLICT := REJECTION + [Entry(Notify, Some(1), false)]

  /** The first caller reads no verdict, claims at time 0 and starts evaluating. */
  lemma FirstCaller(span: nat, gap: nat) returns (states: seq<World>, es: seq<Event>)
    ensures Path(GUARDED, states, es) && Initial(states[0]) && AllPunctual(span, gap, states)
    ensures states[|es|] == With(map[], EMPTY.(row := Some(CLAIMED_ROW)), false, 0, FIRST)
  {
    var p1, e1 := SourceStarts(span, gap);
    var started := EMPTY.(row := Some(PENDING_ROW));
    var claimed := EMPTY.(row := Some(CLAIMED_ROW));
    var v := PENDING_ROW;
    var p2, e2 := TimedPath(GUARDED, span, gap, [started, started, started, started, started, claimed],
                            [Lock, Latest, GuardRead(v), GuardLease(v, 0), GuardClaim(v, 0, 0), GuardEval(v, 0)],
                            [Go, Go, Go, Go, Go], 0, Source, map[]);
    JoinTimed(GUARDED, span, gap, p1, e1, p2, e2);
    states, es := p1 + p2[1..], e1 + e2;
  }

  lemma SourceStarts(span: nat, gap: nat) returns (states: seq<World>, es: seq<Event>)
    ensures Path(GUARDED, states, es) && Initial(states[0]) && AllPunctual(span, gap, states)
    ensures states[|es|] == With(map[], EMPTY.(row := Some(PENDING_ROW)), false, 0, Thread(Source, Lock))
  {
    var w0 := World(EMPTY, false, map[]);
    var p1, e1 := SourceAccepts();
    assert AllPunctual(span, gap, p1);
    OneTimed(GUARDED, span, gap, w0, Spawn(0, Source), p1[0]);
    JoinTimed(GUARDED, span, gap, [w0, p1[0]], [Spawn(0, Source)], p1, e1);
    states, es := [w0, p1[0]] + p1[1..], [Spawn(0, Source)] + e1;
  }

  const SECOND := Thread(Notifier, Lock)
  const REJECTED := Thread(Source, AllowRead(PENDING_ROW))

  function Reading(late: nat): Thread { Thread(Notifier, GuardLease(CLAIMED_ROW, late)) }

  lemma SecondIsSpawned(span: nat, gap: nat, late: nat) returns (states: seq<World>, es: seq<Event>)
    requires late <= span
    ensures Path(GUARDED, states, es) && AllPunctual(span, gap, states)
    ensures states[0] == With(map[], EMPTY.(row := Some(CLAIMED_ROW)), false, 0, FIRST)
    ensures states[|es|] == With(map[0 := FIRST], Store(Some(CLAIMED_ROW), [], [], false, late), false, 1, SECOND)
  {
    var w0 := With(map[], EMPTY.(row := Some(CLAIMED_ROW)), false, 0, FIRST);
    var w1 := w0.(store := w0.store.(now := late));
    var w2 := With(map[0 := FIRST], w1.store, false, 1, SECOND);
    OneTimed(GUARDED, span, gap, w0, Tick(late), w1);
    OneTimed(GUARDED, span, gap, w1, Spawn(1, Notifier), w2);
    JoinTimed(GUARDED, span, gap, [w0, w1], [Tick(late)], [w1, w2], [Spawn(1, Notifier)]);
    states, es := [w0, w1] + [w1, w2][1..], [Tick(late), Spawn(1, Notifier)];
    assert es == [Tick(late)] + [Spawn(1, Notifier)];
  }

  /** The second caller reads no verdict, and then the first one's rejection lands. */
  lemma SecondReads(span: nat, gap: nat, late: nat) returns (states: seq<World>, es: seq<Event>)
    requires late <= span
    ensures Path(GUARDED, states, es) && AllPunctual(span, gap, states)
    ensures states[0] == With(map[0 := FIRST], Store(Some(CLAIMED_ROW), [], [], false, late), false, 1, SECOND)
    ensures states[|es|] ==
            With(map[1 := Reading(late)], Store(Some(CLAIMED_ROW), [], [], false, late), false, 0, FIRST)
  {
    var s := Store(Some(CLAIMED_ROW), [], [], false, late);
    var v := CLAIMED_ROW;
    states, es := TimedPath(GUARDED, span, gap, [s, s, s, s], [Lock, Latest, GuardRead(v), GuardLease(v, late)],
                            [Go, Go, Go], 1, Notifier, map[0 := FIRST]);
    assert map[0 := FIRST][1 := Reading(late)] == map[1 := Reading(late)][0 := FIRST];
  }

  lemma FirstRejects(span: nat, gap: nat, late: nat) returns (states: seq<World>, es: seq<Event>)
    requires late <= span
    ensures Path(GUARDED, states, es) && AllPunctual(span, gap, states)
    ensures states[0] == With(map[1 := Reading(late)], Store(Some(CLAIMED_ROW), [], [], false, late), false, 0, FIRST)
    ensures states[|es|]
        == With(map[0 := REJECTED], Store(Some(CLAIMED_ROW), REJECTION, [], false, late), false, 1, Reading(late))
  {
    var s := Store(Some(CLAIMED_ROW), [], [], false, late);
    var judged := s.(log := REJECTION);
    assert s.log + [Entry(DoNotNotify, None, false)] == REJECTION;
    states, es := TimedPath(GUARDED, span, gap, [s, judged], [GuardEval(PENDING_ROW, 0), AllowRead(PENDING_ROW)],
                            [Judged(DoNotNotify, 0)], 0, Source, map[1 := Reading(late)]);
    assert map[1 := Reading(late)][0 := REJECTED] == map[0 := REJECTED][1 := Reading(late)];
  }

  /** At time 90 the lease is free again: the second caller claims it ... */
  lemma SecondClaims(span: nat, gap: nat, late: nat) returns (states: seq<World>, es: seq<Event>)
    requires late <= 90 <= late + gap
    ensures Path(GUARDED, states, es) && AllPunctual(span, gap, states)
    ensures states[0] == With(map[0 := REJECTED], Store(Some(CLAIMED_ROW), REJECTION, [], false, late), false, 1,
        Reading(late))
    ensures states[|es|] == With(map[0 := REJECTED], Store(Some(RECLAIMED), REJECTION, [], false, 90), false, 1,
                                 Thread(Notifier, GuardEval(CLAIMED_ROW, 90)))
  {
    var v := CLAIMED_ROW;
    var w0 := With(map[0 := REJECTED], Store(Some(v), REJECTION, [], false, late), false, 1, Reading(late));
    var s0 := Store(Some(v), REJECTION, [], false, 90);
    var s1 := s0.(row := Some(RECLAIMED));
    var p1, e1 := TimedPath(GUARDED, span, gap, [s0, s0, s1],
        [GuardLease(v, late), GuardClaim(v, late, 90), GuardEval(v, 90)],
                            [Go, Go], 1, Notifier, map[0 := REJECTED]);
    OneTimed(GUARDED, span, gap, w0, Tick(90 - late), p1[0]);
    JoinTimed(GUARDED, span, gap, [w0, p1[0]], [Tick(90 - late)], p1, e1);
    states, es := [w0, p1[0]] + p1[1..], [Tick(90 - late)] + e1;
  }

  /** ... evaluates the job a second time, and publishes it. */
  lemma SecondPublishes(span: nat, gap: nat) returns (states: seq<World>, es: seq<Event>)
    ensures Path(GUARDED, states, es) && AllPunctual(span, gap, states)
    ensures states[0] == With(map[0 := REJECTED], Store(Some(RECLAIMED), REJECTION, [], false, 90), false, 1,
                              Thread(Notifier, GuardEval(CLAIMED_ROW, 90)))
    ensures states[|es|].store == Store(Some(RECLAIMED), CONFLICT, [Some(1)], false, 90)
  {
    var v := CLAIMED_ROW;
    var s1 := Store(Some(RECLAIMED), REJECTION, [], false, 90);
    var s2 := s1.(log := CONFLICT);
    var s3 := s2.(published := [Some(1)]);
    var event: Option<int> := Some(1);
    assert s2.published + [event] == s3.published;
    states, es := TimedPath(GUARDED, span, gap, [s1, s2, s2, s2, s3],
                            [GuardEval(v, 90), AllowRead(v), Publish, Send(Some(1)), MarkComplete],
                            [Judged(Notify, 1), Go, Go, Go], 1, Notifier, map[0 := REJECTED]);
  }

  /** Without the margin, a punctual run publishes a job the guard rejected and nobody arbitrated. */
  lemma ConflictingVerdicts(span: nat, gap: nat) returns (states: seq<World>, es: seq<Event>)
    requires span + gap >= GUARD_LEASE
    ensures Path(GUARDED, states, es) && Initial(states[0]) && AllPunctual(span, gap, states)
    ensures var end := states[|es|];
            && end.store.published == [Some(1)] && !end.store.arbitrated
            && Entry(DoNotNotify, None, false) in end.store.log && Verdicts(end.store.log) == 2
  {
    var late := if gap <= 90 then 90 - gap else 0;
    var p1, e1 := FirstCaller(span, gap);
    var p2, e2 := SecondIsSpawned(span, gap, late);
    JoinTimed(GUARDED, span, gap, p1, e1, p2, e2);
    var p3, e3 := SecondReads(span, gap, late);
    JoinTimed(GUARDED, span, gap, p1 + p2[1..], e1 + e2, p3, e3);
    var p4, e4 := FirstRejects(span, gap, late);
    JoinTimed(GUARDED, span, gap, p1 + p2[1..] + p3[1..], e1 + e2 + e3, p4, e4);
    var p5, e5 := SecondClaims(span, gap, late);
    JoinTimed(GUARDED, span, gap, p1 + p2[1..] + p3[1..] + p4[1..], e1 + e2 + e3 + e4, p5, e5);
    var p6, e6 := SecondPublishes(span, gap);
    JoinTimed(GUARDED, span, gap, p1 + p2[1..] + p3[1..] + p4[1..] + p5[1..], e1 + e2 + e3 + e4 + e5, p6, e6);
    states, es := p1 + p2[1..] + p3[1..] + p4[1..] + p5[1..] + p6[1..], e1 + e2 + e3 + e4 + e5 + e6;
    AppendVerdicts([], Entry(DoNotNotify, None, false));
    AppendVerdicts(REJECTION, Entry(Notify, Some(1), false));
    assert [] + [Entry(DoNotNotify, None, false)] == REJECTION;
    assert CONFLICT[0] == Entry(DoNotNotify, None, false);
  }

  /** One verdict per job on every punctual run, exactly when span + gap stays below the lease. */
  lemma OneVerdictIff(span: nat, gap: nat)
    ensures (forall states: seq<World>, es: seq<Event> | Path(GUARDED, states, es) ::
               Initial(states[0]) && AllPunctual(span, gap, states) ==> Verdicts(states[|es|].store.log) <= 1)
            <==> span + gap < GUARD_LEASE
  {
    if span + gap < GUARD_LEASE {
      forall states: seq<World>, es: seq<Event> | Path(GUARDED, states, es) && Initial(states[0])
          && AllPunctual(span, gap, states)
        ensures Verdicts(states[|es|].store.log) <= 1
      {
        OneVerdictPerJob(GUARDED, span, gap, states, es);
        assert states[|es|] in states;
      }
    } else {
      var states, es := ConflictingVerdicts(span, gap);
    }
  }
}
