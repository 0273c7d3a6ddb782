/**
 A run without any death that strands an accepted job: a sweep whose arbitration
 outlasts its claim fails after another sweep has accepted the job.
 */
module JobLateError {
  import opened Options
  import opened JobLifecycle
  import JobStranding
  import opened JobWitnesses

  /** A run in which nobody dies. */
  ghost predicate Reaches(u: World, v: World) {
    exists states, es :: ReachesBy(u, v, states, es)
  }

  ghost predicate ReachesBy(u: World, v: World, states: seq<World>, es: seq<Event>) {
    Path(GUARDED, states, es) && states[0] == u && states[|es|] == v && forall e <- es :: !e.Die?
  }

  lemma Event(u: World, e: Event, v: World)
    requires Apply(GUARDED, u, e) == Some(v) && !e.Die?
    ensures Reaches(u, v)
  {
    assert ReachesBy(u, v, [u, v], [e]);
  }

  lemma Onward(u: World, v: World, w: World)
    requires Reaches(u, v) && Reaches(v, w)
    ensures Reaches(u, w)
  {
    var p, es :| ReachesBy(u, v, p, es);
    var q, fs :| ReachesBy(v, w, q, fs);
    Join(GUARDED, p, es, q, fs);
    assert forall e <- es + fs :: e in es || e in fs;
    assert ReachesBy(u, w, p + q[1..], es + fs);
  }

  lemma AloneReaches(stores: seq<Store>, pcs: seq<Pc>, choices: seq<Choice>, t: int, kind: Kind, others: map<int,
      Thread>)
    requires Alone(GUARDED, stores, pcs, choices) && t !in others
    ensures Reaches(With(others, stores[0], false, t, Thread(kind, pcs[0])),
                    With(others, stores[|choices|], false, t, Thread(kind, pcs[|choices|])))
  {
    var states := seq(|stores|,
        i requires 0 <= i < |stores| => With(others, stores[i], false, t, Thread(kind, pcs[i])));
    var es := seq(|choices|, i requires 0 <= i < |choices| => Act(t, choices[i]));
    forall i | 0 <= i < |es| ensures Apply(GUARDED, states[i], es[i]) == Some(states[i + 1]) {
      assert Step(GUARDED, stores[i], pcs[i], choices[i]) == Some((stores[i + 1], At(pcs[i + 1])));
      assert states[i].threads[t := Thread(kind, pcs[i + 1])] == others[t := Thread(kind, pcs[i + 1])];
    }
    assert forall e <- es :: !e.Die?;
    assert ReachesBy(states[0], states[|es|], states, es);
  }

  const OPEN_PLAN := Plan(NoSelection, None, false, true, true, false)
  const LLM_PLAN := OPEN_PLAN.(selection := Llm, category := Some(1))
  const OPEN_ROW := Row(Undecided, OtherReason, false, Unset, None, NoSelection, None, None)
  const ERROR_ROW := OPEN_ROW.(decision := Pending, reason := LlmError, retryAt := Some(300))
  const FIRST_CLAIM := ERROR_ROW.(retryAt := Some(420))
  const SECOND_CLAIM := ERROR_ROW.(retryAt := Some(540))
  const LLM_ROW := SECOND_CLAIM.(decision := Accepted, reason := OtherReason, category := Some(1), selection := Llm)
  const STARTED_ROW := LLM_ROW.(status := Started)
  const SILENT_ROW := STARTED_ROW.(decision := Pending, reason := LlmError, category := None,
                                   selection := NoSelection, retryAt := Some(720))
  const SLOW := Thread(Sweep, Arbitrate(OPEN_PLAN))

  function Records(row: Row, arbitrated: bool, now: int): Store { Store(Some(row), [], [], arbitrated, now) }

  /** The source creates the row ... */
  lemma SourceCreatesOpen()
    ensures Reaches(World(EMPTY, false, map[]),
                    With(map[], Records(OPEN_ROW, false, 0), false, 0, Thread(Source, ClaimProject(OPEN_PLAN))))
  {
    var w0 := World(EMPTY, false, map[]);
    var a := With(map[], EMPTY, false, 0, Thread(Source, Read));
    Event(w0, Spawn(0, Source), a);
    assert MakePlan(Contested(false), false) == OPEN_PLAN;
    AloneReaches([EMPTY, EMPTY, EMPTY, Records(OPEN_ROW, false, 0)],
                 [Read, Classify(None), Create(OPEN_PLAN), ClaimProject(OPEN_PLAN)],
                 [Go, Classified(Contested(false)), Go], 0, Source, map[]);
    Onward(w0, a, With(map[], Records(OPEN_ROW, false, 0), false, 0, Thread(Source, ClaimProject(OPEN_PLAN))));
  }

  /** ... its arbitration fails ... */
  lemma SourceArbitrates()
    ensures Reaches(With(map[], Records(OPEN_ROW, false, 0), false, 0, Thread(Source, ClaimProject(OPEN_PLAN))),
                    With(map[], Records(OPEN_ROW, false, 0), false, 0, Thread(Source, RecordError)))
  {
    var s := Records(OPEN_ROW, false, 0);
    AloneReaches([s, s, s], [ClaimProject(OPEN_PLAN), Arbitrate(OPEN_PLAN), RecordError],
                 [Project(true), Arbitrated(Fails)], 0, Source, map[]);
  }

  /** ... and the row waits for the sweep. */
  lemma SourceFails()
    ensures Reaches(World(EMPTY, false, map[]), World(Records(ERROR_ROW, false, 0), false, map[]))
  {
    var w0, w2 := World(EMPTY, false, map[]), World(Records(ERROR_ROW, false, 0), false, map[]);
    var a := With(map[], Records(OPEN_ROW, false, 0), false, 0, Thread(Source, ClaimProject(OPEN_PLAN)));
    var b := With(map[], Records(OPEN_ROW, false, 0), false, 0, Thread(Source, RecordError));
    SourceCreatesOpen();
    SourceArbitrates();
    Onward(w0, a, b);
    assert b.threads - {0} == map[];
    Event(b, Act(0, Go), w2);
    Onward(w0, b, w2);
  }

  /** The first sweep claims the row and is still arbitrating when its claim runs out. */
  lemma FirstSweepStalls()
    ensures Reaches(World(Records(ERROR_ROW, false, 0), false, map[]),
                    With(map[], Records(FIRST_CLAIM, false, 420), false, 1, SLOW))
  {
    var w0 := World(Records(ERROR_ROW, false, 0), false, map[]);
    var s0, s1 := Records(ERROR_ROW, false, 300), Records(FIRST_CLAIM, false, 300);
    var w1 := World(s0, false, map[]);
    var a, b := With(map[], s0, false, 1, Thread(Sweep, Read)), With(map[], s1, false, 1, SLOW);
    Event(w0, Tick(300), w1);
    Event(w1, Spawn(1, Sweep), a);
    Onward(w0, w1, a);
    assert MakePlan(Contested(false), false) == OPEN_PLAN;
    AloneReaches([s0, s0, s1, s1, s1],
                 [Read, ClaimPending(ERROR_ROW), Classify(Some(ERROR_ROW)), ClaimProject(OPEN_PLAN),
                     Arbitrate(OPEN_PLAN)],
                 [Go, Go, Classified(Contested(false)), Project(true)], 1, Sweep, map[]);
    Onward(w0, a, b);
    var c := With(map[], Records(FIRST_CLAIM, false, 420), false, 1, SLOW);
    Event(b, Tick(120), c);
    Onward(w0, b, c);
  }

  /** A second sweep claims it again ... */
  lemma SecondSweepClaims()
    ensures Reaches(With(map[], Records(FIRST_CLAIM, false, 420), false, 1, SLOW),
                    With(map[1 := SLOW], Records(SECOND_CLAIM, false, 420), false, 2, SLOW))
  {
    var w0 := With(map[], Records(FIRST_CLAIM, false, 420), false, 1, SLOW);
    var s0, s1 := Records(FIRST_CLAIM, false, 420), Records(SECOND_CLAIM, false, 420);
    var a := With(map[1 := SLOW], s0, false, 2, Thread(Sweep, Read));
    assert w0.threads == map[1 := SLOW];
    Event(w0, Spawn(2, Sweep), a);
    assert MakePlan(Contested(false), false) == OPEN_PLAN;
    AloneReaches([s0, s0, s1, s1, s1],
                 [Read, ClaimPending(FIRST_CLAIM), Classify(Some(FIRST_CLAIM)), ClaimProject(OPEN_PLAN),
                     Arbitrate(OPEN_PLAN)],
                 [Go, Go, Classified(Contested(false)), Project(true)], 2, Sweep, map[1 := SLOW]);
    Onward(w0, a, With(map[1 := SLOW], s1, false, 2, SLOW));
  }

  /** ... its arbitration accepts, and it starts the notification. */
  lemma SecondSweepAccepts()
    ensures Reaches(With(map[1 := SLOW], Records(SECOND_CLAIM, false, 420), false, 2, SLOW),
                    With(map[1 := SLOW], Records(STARTED_ROW, true, 420), false, 2, Thread(Sweep, Lock)))
  {
    AloneReaches([Records(SECOND_CLAIM, false, 420), Records(SECOND_CLAIM, true, 420), Records(LLM_ROW, true, 420),
                  Records(STARTED_ROW, true, 420)],
                 [Arbitrate(OPEN_PLAN), Decide(LLM_PLAN, true), Window, Lock],
                 [Arbitrated(Selects(1)), Go, Go], 2, Sweep, map[1 := SLOW]);
  }

  /** Now the first sweep's arbitration fails, and its error record takes selection and category away. */
  lemma FirstSweepFails()
    ensures Reaches(With(map[1 := SLOW], Records(STARTED_ROW, true, 420), false, 2, Thread(Sweep, Lock)),
                    With(map[], Records(SILENT_ROW, true, 420), false, 2, Thread(Sweep, Lock)))
  {
    var second := map[2 := Thread(Sweep, Lock)];
    var s0 := Records(STARTED_ROW, true, 420);
    var w0 := With(map[1 := SLOW], s0, false, 2, Thread(Sweep, Lock));
    var a, b := With(second, s0, false, 1, SLOW), With(second, s0, false, 1, Thread(Sweep, RecordError));
    assert w0.threads == a.threads;
    AloneReaches([s0, s0], [Arbitrate(OPEN_PLAN), RecordError], [Arbitrated(Fails)], 1, Sweep, second);
    var w1 := With(map[], Records(SILENT_ROW, true, 420), false, 2, Thread(Sweep, Lock));
    assert b.threads - {1} == w1.threads;
    Event(b, Act(1, Go), w1);
    Onward(w0, b, w1);
  }

  /** The second sweep finds neither category nor verdict, and leaves. */
  lemma SecondSweepLeaves()
    ensures Reaches(With(map[], Records(SILENT_ROW, true, 420), false, 2, Thread(Sweep, Lock)),
                    World(Records(SILENT_ROW, true, 420), false, map[]))
  {
    var s := Records(SILENT_ROW, true, 420);
    var a, b := With(map[], s, false, 2, Thread(Sweep, Lock)),
        With(map[], s, false, 2, Thread(Sweep, JudgementRead(SILENT_ROW)));
    AloneReaches([s, s, s, s], [Lock, Latest, AllowRead(SILENT_ROW), JudgementRead(SILENT_ROW)], [Go, Go, Go], 2,
        Sweep, map[]);
    assert b.threads - {2} == map[];
    Event(b, Act(2, Go), World(s, false, map[]));
    Onward(a, b, World(s, false, map[]));
  }

  /**
   Nobody dies, an arbitration has accepted the job, both queries match its row, and
   still no sweep will ever move it: a late error has left it without a word.
   */
  lemma LateErrorStrands() returns (end: World)
    ensures Reaches(World(EMPTY, false, map[]), end) && Initial(World(EMPTY, false, map[]))
    ensures end.threads == map[] && end.store.arbitrated && end.store.published == []
    ensures JobStranding.Stranded(GUARDED, end) && InNotificationSweep(end.store.row.value)
  {
    var w0 := World(EMPTY, false, map[]);
    var w1 := World(Records(ERROR_ROW, false, 0), false, map[]);
    var w2 := With(map[], Records(FIRST_CLAIM, false, 420), false, 1, SLOW);
    var w3 := With(map[1 := SLOW], Records(SECOND_CLAIM, false, 420), false, 2, SLOW);
    var w4 := With(map[1 := SLOW], Records(STARTED_ROW, true, 420), false, 2, Thread(Sweep, Lock));
    var w5 := With(map[], Records(SILENT_ROW, true, 420), false, 2, Thread(Sweep, Lock));
    end := World(Records(SILENT_ROW, true, 420), false, map[]);
    SourceFails();
    FirstSweepStalls();
    Onward(w0, w1, w2);
    SecondSweepClaims();
    Onward(w0, w2, w3);
    SecondSweepAccepts();
    Onward(w0, w3, w4);
    FirstSweepFails();
    Onward(w0, w4, w5);
    SecondSweepLeaves();
    Onward(w0, w5, end);
    JobStranding.FinishesIff(GUARDED, end);
  }
}
