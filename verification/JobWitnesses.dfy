/** Runs that show what goes wrong without the premises on callers. */
module JobWitnesses {
  import opened Options
  import opened JobLifecycle
  import opened JobProgress
  import JobStranding

  function Solo(s: Store, done: bool, t: int, th: Thread): World {
    With(map[], s, done, t, th)
  }

  lemma Join(cfg: Config, p: seq<World>, es: seq<Event>, q: seq<World>, fs: seq<Event>)
    requires Path(cfg, p, es) && Path(cfg, q, fs) && p[|es|] == q[0]
    ensures Path(cfg, p + q[1..], es + fs)
    ensures (p + q[1..])[0] == p[0] && (p + q[1..])[|es| + |fs|] == q[|fs|]
  {
    var r := p + q[1..];
    forall i | 0 <= i < |es| + |fs|
      ensures Apply(cfg, r[i], (es + fs)[i]) == Some(r[i + 1])
    {
      if i >= |es| {
        assert r[i] == q[i - |es|] && r[i + 1] == q[i - |es| + 1];
      }
    }
  }

  /** The successive steps of a caller that nobody interrupts. */
  ghost predicate Alone(cfg: Config, stores: seq<Store>, pcs: seq<Pc>, choices: seq<Choice>) {
    && |stores| == |pcs| == |choices| + 1
    && forall i :: 0 <= i < |choices|
        ==> Step(cfg, stores[i], pcs[i], choices[i]) == Some((stores[i + 1], At(pcs[i + 1])))
  }

  /** ... while the other callers stand still. */
  function With(others: map<int, Thread>, s: Store, done: bool, t: int, th: Thread): World {
    World(s, done, others[t := th])
  }

  lemma AlonePath(cfg: Config, stores: seq<Store>, pcs: seq<Pc>, choices: seq<Choice>,
                  done: bool, t: int, kind: Kind, others: map<int, Thread> := map[])
    returns (states: seq<World>, es: seq<Event>)
    requires Alone(cfg, stores, pcs, choices) && t !in others
    ensures Path(cfg, states, es) && |es| == |choices|
    ensures forall i | 0 <= i < |states| :: states[i] == With(others, stores[i], done, t, Thread(kind, pcs[i]))
  {
    states := seq(|stores|, i requires 0 <= i < |stores| => With(others, stores[i], done, t, Thread(kind, pcs[i])));
    es := seq(|choices|, i requires 0 <= i < |choices| => Act(t, choices[i]));
    forall i | 0 <= i < |es| ensures Apply(cfg, states[i], es[i]) == Some(states[i + 1]) {
      var w := states[i];
      assert Step(cfg, stores[i], pcs[i], choices[i]) == Some((stores[i + 1], At(pcs[i + 1])));
      assert w.threads[t := Thread(kind, pcs[i + 1])] == others[t := Thread(kind, pcs[i + 1])];
    }
  }

  // ---- a job stranded by a death in a sweep's window ----

  const GUARDED := Config(true, 300)
  const EMPTY := Store(None, [], [], false, 0)
  const TIEBREAK := Picked(1, true, false)
  const PICKED_ROW := Row(Undecided, OtherReason, false, Unset, Some(1), TieBreak, None, None)
  const ACCEPTED_ROW := PICKED_ROW.(decision := Accepted)
  const PENDING_ROW := ACCEPTED_ROW.(status := Started)
  const CLAIMED_ROW := PENDING_ROW.(lease := Some(90))
  const FALLBACK_ROW := CLAIMED_ROW.(decision := Pending, reason := GuardFallback, needsGemini := true,
                                     status := Unset, retryAt := Some(60))
  const RETRIED_ROW := FALLBACK_ROW.(retryAt := Some(180))
  const STRANDED_ROW := RETRIED_ROW.(decision := Accepted, reason := OtherReason, selection := Llm)
  const REJECTION := [Entry(DoNotNotify, None, false)]
  const RESCUED := REJECTION + [Entry(Notify, Some(1), true)]

  const PICKED_PLAN := Plan(TieBreak, Some(1), false, true, false, false)
  const RETRY_PLAN := Plan(NoSelection, None, false, true, true, true)
  const CHOSEN_PLAN := RETRY_PLAN.(selection := Llm, category := Some(1))

  /** A source finds a tie-break pick and creates the row ... */
  lemma SourceCreates() returns (states: seq<World>, es: seq<Event>)
    ensures Path(GUARDED, states, es) && |es| == 3
    ensures states[0] == Solo(EMPTY, false, 0, Thread(Source, Read))
    ensures states[3] == Solo(EMPTY.(row := Some(PICKED_ROW)), false, 0, Thread(Source, ClaimProject(PICKED_PLAN)))
    ensures forall w <- states :: forall t <- w.threads :: !InGuard(w.threads[t].pc)
  {
    var stores := [EMPTY, EMPTY, EMPTY, EMPTY.(row := Some(PICKED_ROW))];
    var pcs := [Read, Classify(None), Create(PICKED_PLAN), ClaimProject(PICKED_PLAN)];
    assert MakePlan(TIEBREAK, false) == PICKED_PLAN;
    states, es := AlonePath(GUARDED, stores, pcs, [Go, Classified(TIEBREAK), Go], false, 0, Source);
    forall w <- states ensures forall t <- w.threads :: !InGuard(w.threads[t].pc) {
      var i :| 0 <= i < |states| && states[i] == w;
    }
  }

  /** ... accepts it and starts the notification. */
  lemma SourceDecides() returns (states: seq<World>, es: seq<Event>)
    ensures Path(GUARDED, states, es) && |es| == 3
    ensures states[0] == Solo(EMPTY.(row := Some(PICKED_ROW)), false, 0, Thread(Source, ClaimProject(PICKED_PLAN)))
    ensures states[3] == Solo(EMPTY.(row := Some(PENDING_ROW)), false, 0, Thread(Source, Lock))
    ensures forall w <- states :: forall t <- w.threads :: !InGuard(w.threads[t].pc)
  {
    var created := EMPTY.(row := Some(PICKED_ROW));
    var stores := [created, created, EMPTY.(row := Some(ACCEPTED_ROW)), EMPTY.(row := Some(PENDING_ROW))];
    states, es := AlonePath(GUARDED, stores, [ClaimProject(PICKED_PLAN), Decide(PICKED_PLAN, true), Window, Lock],
                            [Project(true), Go, Go], false, 0, Source);
    forall w <- states ensures forall t <- w.threads :: !InGuard(w.threads[t].pc) {
      var i :| 0 <= i < |states| && states[i] == w;
    }
  }

  lemma SourceAccepts() returns (states: seq<World>, es: seq<Event>)
    ensures Path(GUARDED, states, es) && |es| == 6
    ensures states[0] == Solo(EMPTY, false, 0, Thread(Source, Read))
    ensures states[6] == Solo(EMPTY.(row := Some(PENDING_ROW)), false, 0, Thread(Source, Lock))
    ensures forall w <- states :: forall t <- w.threads :: !InGuard(w.threads[t].pc)
  {
    var p, fs := SourceCreates();
    var q, gs := SourceDecides();
    Join(GUARDED, p, fs, q, gs);
    states, es := p + q[1..], fs + gs;
    forall w <- states ensures forall t <- w.threads :: !InGuard(w.threads[t].pc) {
      assert w in p || w in q;
    }
  }

  lemma GuardEvaluates() returns (states: seq<World>, es: seq<Event>)
    ensures Path(GUARDED, states, es) && |es| == 5
    ensures states[0] == Solo(EMPTY.(row := Some(PENDING_ROW)), false, 0, Thread(Source, Lock))
    ensures states[5] == Solo(EMPTY.(row := Some(CLAIMED_ROW)), false, 0, Thread(Source, GuardEval(PENDING_ROW, 0)))
  {
    var started := EMPTY.(row := Some(PENDING_ROW));
    var claimed := EMPTY.(row := Some(CLAIMED_ROW));
    var v := PENDING_ROW;
    var stores := [started, started, started, started, started, claimed];
    var pcs := [Lock, Latest, GuardRead(v), GuardLease(v, 0), GuardClaim(v, 0, 0), GuardEval(v, 0)];
    states, es := AlonePath(GUARDED, stores, pcs, [Go, Go, Go, Go, Go], false, 0, Source);
  }

  lemma GuardRejects() returns (states: seq<World>, es: seq<Event>)
    ensures Path(GUARDED, states, es) && |es| == 8
    ensures states[0] == Solo(EMPTY.(row := Some(PENDING_ROW)), false, 0, Thread(Source, Lock))
    ensures states[8] == Solo(EMPTY.(row := Some(CLAIMED_ROW), log := REJECTION), false, 0, Thread(Source, Fallback))
  {
    var claimed := EMPTY.(row := Some(CLAIMED_ROW));
    var judged := claimed.(log := REJECTION);
    var v := PENDING_ROW;
    assert claimed.log + [Entry(DoNotNotify, None, false)] == REJECTION;
    var p, fs := GuardEvaluates();
    var q, gs := AlonePath(GUARDED, [claimed, judged, judged, judged],
                           [GuardEval(v, 0), AllowRead(v), JudgementRead(v), Fallback],
                           [Judged(DoNotNotify, 0), Go, Go], false, 0, Source);
    Join(GUARDED, p, fs, q, gs);
    states, es := p + q[1..], fs + gs;
  }

  /** The sweep claims the row and sends it to arbitration ... */
  lemma SweepReenters() returns (states: seq<World>, es: seq<Event>)
    ensures Path(GUARDED, states, es) && |es| == 4
    ensures states[0] == Solo(Store(Some(FALLBACK_ROW), REJECTION, [], false, 60), true, 1, Thread(Sweep, Read))
    ensures states[4] == Solo(Store(Some(RETRIED_ROW), REJECTION, [], false, 60), true, 1,
        Thread(Sweep, Arbitrate(RETRY_PLAN)))
  {
    var s0 := Store(Some(FALLBACK_ROW), REJECTION, [], false, 60);
    var s1 := s0.(row := Some(RETRIED_ROW));
    var pcs := [Read, ClaimPending(FALLBACK_ROW), Classify(Some(FALLBACK_ROW)), ClaimProject(RETRY_PLAN),
        Arbitrate(RETRY_PLAN)];
    assert MakePlan(TIEBREAK, true) == RETRY_PLAN;
    states, es := AlonePath(GUARDED, [s0, s0, s1, s1, s1], pcs, [Go, Go, Classified(TIEBREAK), Project(true)], true,
        1, Sweep);
  }

  /** ... which accepts. */
  lemma SweepDecides() returns (states: seq<World>, es: seq<Event>)
    ensures Path(GUARDED, states, es) && |es| == 3
    ensures states[0] == Solo(Store(Some(RETRIED_ROW), REJECTION, [], false, 60), true, 1,
        Thread(Sweep, Arbitrate(RETRY_PLAN)))
    ensures states[3] == Solo(Store(Some(STRANDED_ROW), RESCUED, [], true, 60), true, 1, Thread(Sweep, Window))
  {
    var s1 := Store(Some(RETRIED_ROW), REJECTION, [], false, 60);
    var s2 := s1.(arbitrated := true);
    var s3 := s2.(log := RESCUED);
    var s4 := s3.(row := Some(STRANDED_ROW));
    var pcs := [Arbitrate(RETRY_PLAN), Rescue(CHOSEN_PLAN), Decide(CHOSEN_PLAN, true), Window];
    states, es := AlonePath(GUARDED, [s1, s2, s3, s4], pcs, [Arbitrated(Selects(1)), Go, Go], true, 1, Sweep);
  }

  lemma SweepArbitrates() returns (states: seq<World>, es: seq<Event>)
    ensures Path(GUARDED, states, es) && |es| == 7
    ensures states[0] == Solo(Store(Some(FALLBACK_ROW), REJECTION, [], false, 60), true, 1, Thread(Sweep, Read))
    ensures states[7] == Solo(Store(Some(STRANDED_ROW), RESCUED, [], true, 60), true, 1, Thread(Sweep, Window))
  {
    var p, fs := SweepReenters();
    var q, gs := SweepDecides();
    Join(GUARDED, p, fs, q, gs);
    states, es := p + q[1..], fs + gs;
  }

  lemma One(cfg: Config, w: World, e: Event, w': World)
    requires Apply(cfg, w, e) == Some(w')
    ensures Path(cfg, [w, w'], [e])
  {
  }

  /**
   A reachable run strands a job: the source has returned, the sweep that
   re-entered process_job dies between lines 884 and 892, and neither query
   matches the row any more.
   */
  lemma SweepDeathStrands() returns (states: seq<World>, es: seq<Event>)
    ensures Path(GUARDED, states, es) && Initial(states[0]) && |es| == 26
    ensures var end := states[26];
            && end.done && end.threads == map[]
            && JobStranding.Stranded(GUARDED, end) && !Good(end.store.row.value) && end.store.published == []
  {
    var w0 := World(EMPTY, false, map[]);
    var p1, e1 := SourceAccepts();
    One(GUARDED, w0, Spawn(0, Source), p1[0]);
    Join(GUARDED, [w0, p1[0]], [Spawn(0, Source)], p1, e1);
    var p2, e2 := GuardRejects();
    Join(GUARDED, [w0, p1[0]] + p1[1..], [Spawn(0, Source)] + e1, p2, e2);
    var r1, f1 := [w0, p1[0]] + p1[1..] + p2[1..], [Spawn(0, Source)] + e1 + e2;
    var w1 := World(Store(Some(FALLBACK_ROW), REJECTION, [], false, 0), true, map[]);
    FallbackReturns(p2[8], w1);
    One(GUARDED, p2[8], Act(0, Go), w1);
    Join(GUARDED, r1, f1, [p2[8], w1], [Act(0, Go)]);
    var w2 := w1.(store := w1.store.(now := 60));
    var p3, e3 := SweepArbitrates();
    One(GUARDED, w1, Tick(60), w2);
    One(GUARDED, w2, Spawn(1, Sweep), p3[0]);
    Join(GUARDED, [w1, w2], [Tick(60)], [w2, p3[0]], [Spawn(1, Sweep)]);
    Join(GUARDED, [w1, w2, p3[0]], [Tick(60), Spawn(1, Sweep)], p3, e3);
    var w3 := World(p3[7].store, true, map[]);
    assert p3[7].threads - {1} == map[];
    One(GUARDED, p3[7], Die(1), w3);
    var r2, f2 := [w1, w2, p3[0]] + p3[1..], [Tick(60), Spawn(1, Sweep)] + e3;
    Join(GUARDED, r2, f2, [p3[7], w3], [Die(1)]);
    Join(GUARDED, r1 + [w1], f1 + [Act(0, Go)], r2 + [w3], f2 + [Die(1)]);
    states, es := r1 + [w1] + (r2 + [w3])[1..], f1 + [Act(0, Go)] + (f2 + [Die(1)]);
    JobStranding.FinishesIff(GUARDED, w3);
  }

  lemma FallbackReturns(w: World, w': World)
    requires w == Solo(EMPTY.(row := Some(CLAIMED_ROW), log := REJECTION), false, 0, Thread(Source, Fallback))
    requires w' == World(Store(Some(FALLBACK_ROW), REJECTION, [], false, 0), true, map[])
    ensures Apply(GUARDED, w, Act(0, Go)) == Some(w')
  {
    assert w.threads - {0} == map[];
  }
}
