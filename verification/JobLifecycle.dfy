/**
 One job's durable row, and any number of callers working on it at once: source
 workers, the classification sweep and the notification sweep, in one process or
 several. Every repository call and every external call is one atomic step
 (app/services/job_processor.py, app/notification_guard/integration.py,
 app/adapters/repositories/postgres.py); a caller may die between any two.
 */
module JobLifecycle {
  import opened Options

  datatype Decision = Undecided | Pending | Accepted | Rejected
  datatype Reason = LlmError | GuardFallback | OtherReason
  datatype Status = Unset | Started | Complete | Suppressed
  datatype Selection = NoSelection | Direct | TieBreak | Llm

  /** The columns of the jobs table that decide what happens next. */
  datatype Row = Row(
    decision: Decision,
    reason: Reason,
    needsGemini: bool,
    status: Status,
    category: Option<int>,
    selection: Selection,
    retryAt: Option<int>,   // Classification Retry Not Before
    lease: Option<int>      // Guard Eval Claim
  )

  datatype Judgement = Notify | DoNotNotify | Error

  /** A row of notification_guard; 'rescue' marks the one an accepted arbitration appends. */
  datatype Entry = Entry(judgement: Judgement, category: Option<int>, rescue: bool)

  /** The deterministic classifier's answer. */
  datatype Classification =
    | NoCandidate
    | Picked(category: int, tie: bool, needsGemini: bool)
    | Contested(needsGemini: bool)

  datatype Arbitration = Fails | SelectsNone | Selects(category: int)

  /** What process_job carries from classification to its last write. */
  datatype Plan = Plan(selection: Selection, category: Option<int>, needsGemini: bool,
                       candidates: bool, arbitrate: bool, fallback: bool)

  /** The next step of a caller. */
  datatype Pc =
    // process_job
    | Read
    | ClaimPending(existing: Row)
    | MarkStarted
    | Classify(known: Option<Row>)
    | Create(plan: Plan)
    | Reread
    | ClaimProject(plan: Plan)
    | RejectDuplicate
    | Arbitrate(plan: Plan)
    | RecordError
    | Rescue(plan: Plan)
    | Decide(plan: Plan, accept: bool)
    | Window
    // _resume_pending_notifications
    | Lock
    | Latest
    | GuardRead(view: Row)
    | GuardLease(view: Row, readAt: int)
    | GuardClaim(view: Row, readAt: int, from: int)
    | GuardWait(view: Row, tries: nat)
    | GuardEval(view: Row, from: int)
    | Reclassify(view: Row, resolved: int)
    | AllowRead(view: Row)
    | JudgementRead(view: Row)
    | Fallback
    | Suppress
    | Publish
    | Send(event: Option<int>)
    | MarkComplete

  datatype Kind = Source | Sweep | Notifier

  datatype Thread = Thread(kind: Kind, pc: Pc)

  /** The durable records of the job and the clock. */
  datatype Store = Store(
    row: Option<Row>,
    log: seq<Entry>,
    published: seq<Option<int>>,   // the stream: the category of each event sent
    arbitrated: bool,   // some LLM arbitration accepted the job
    now: int
  )

  datatype World = World(
    store: Store,
    done: bool,         // some source's process_job returned normally
    threads: map<int, Thread>
  )

  /** Where a caller stands after a step; Raises is also a caller that gives up. */
  datatype Next = At(pc: Pc) | Returns | Raises

  /** What the world outside decides at a step. */
  datatype Choice =
    | Go
    | Classified(classification: Classification)
    | Project(won: bool)
    | Arbitrated(arbitration: Arbitration)
    | Judged(judgement: Judgement, category: int)

  datatype Event =
    | Spawn(thread: int, kind: Kind)
    | Act(thread: int, choice: Choice)
    | Die(thread: int)
    | Tick(seconds: nat)

  datatype Config = Config(guardOn: bool, retryInterval: nat)

  const CLASSIFICATION_LEASE := 120
  const FALLBACK_INTERVAL := 60
  const GUARD_LEASE := 90
  const GUARD_POLL_TRIES := 12

  // ---- conditional updates and queries of one row ----

  predicate MayClaimPending(row: Row, now: int) {
    row.decision == Pending && (row.retryAt.None? || row.retryAt.value <= now)
  }

  predicate MayClaimGuard(row: Row, now: int) {
    row.lease.None? || row.lease.value <= now
  }

  predicate InClassificationSweep(row: Row, now: int) {
    row.decision == Pending && row.reason != OtherReason
    && (row.retryAt.None? || row.retryAt.value <= now)
  }

  predicate InNotificationSweep(row: Row) {
    row.status == Started
  }

  function NewRow(plan: Plan): Row {
    Row(Undecided, OtherReason, plan.needsGemini, Unset, plan.category, plan.selection, None, None)
  }

  function LatestJudgement(log: seq<Entry>): Option<Judgement> {
    if log == [] then None else Some(log[|log| - 1].judgement)
  }

  // ---- steps ----

  function MakePlan(c: Classification, fallback: bool): Plan {
    match c
    case NoCandidate => Plan(NoSelection, None, false, false, fallback, fallback)
    case Picked(category, tie, needsGemini) =>
      if fallback then Plan(NoSelection, None, needsGemini, true, true, true)
      else Plan(if tie then TieBreak else Direct, Some(category), needsGemini, true, false, false)
    case Contested(needsGemini) => Plan(NoSelection, None, needsGemini, true, true, fallback)
  }

  predicate IsFallback(known: Option<Row>) {
    known.Some? && known.value.needsGemini && known.value.reason == GuardFallback
  }

  function Update(s: Store, row: Row): Store {
    if s.row.None? then s else s.(row := Some(row))
  }

  function AfterRead(row: Option<Row>): Next {
    match row
    case None => At(Classify(None))
    case Some(r) =>
      if r.status != Unset then At(Lock)
      else match r.decision
        case Pending => At(ClaimPending(r))
        case Accepted => At(MarkStarted)
        case Rejected => Returns
        case Undecided => At(Classify(row))
  }

  /** Where process_job goes once the cross-source claim is won. */
  function AfterClaim(plan: Plan): Pc {
    if !plan.candidates then Decide(plan, false)
    else if plan.arbitrate then Arbitrate(plan)
    else Decide(plan, plan.category.Some?)
  }

  function ProcessStep(cfg: Config, s: Store, pc: Pc, choice: Choice): Option<(Store, Next)> {
    match pc
    case Read => Some((s, AfterRead(s.row)))
    case ClaimPending(existing) =>
      if s.row.Some? && MayClaimPending(s.row.value, s.now)
      then Some((Update(s, s.row.value.(retryAt := Some(s.now + CLASSIFICATION_LEASE))), At(Classify(Some(existing)))))
      else Some((s, Raises))
    case MarkStarted =>
      if s.row.None? then None else Some((Update(s, s.row.value.(status := Started)), At(Lock)))
    case Classify(known) =>
      if !choice.Classified? then None
      else
        var plan := MakePlan(choice.classification, IsFallback(known));
        Some((s, At(if known.None? then Create(plan) else ClaimProject(plan))))
    case Create(plan) =>
      if s.row.None? then Some((s.(row := Some(NewRow(plan))), At(ClaimProject(plan)))) else Some((s, At(Reread)))
    case Reread =>
      if s.row.Some? && s.row.value.status != Unset then Some((s, At(Lock))) else Some((s, Returns))
    case ClaimProject(plan) =>
      if !choice.Project? then None
      else Some((s, At(if choice.won then AfterClaim(plan) else RejectDuplicate)))
    case RejectDuplicate =>
      if s.row.None? then None
      else Some((Update(s, s.row.value.(decision := Rejected, reason := OtherReason)), Returns))
    case Arbitrate(plan) =>
      if !choice.Arbitrated? then None
      else (match choice.arbitration
        case Fails => Some((s, At(RecordError)))
        case SelectsNone => Some((s, At(Decide(plan, false))))
        case Selects(c) =>
          var chosen := plan.(selection := Llm, category := Some(c));
          Some((s.(arbitrated := true), At(if plan.fallback then Rescue(chosen) else Decide(chosen, true)))))
    case RecordError =>
      if s.row.None? then None
      else Some((Update(s, s.row.value.(decision := Pending, reason := LlmError, category := None,
                                        selection := NoSelection, retryAt := Some(s.now + cfg.retryInterval))), Raises))
    case Rescue(plan) =>
      Some((s.(log := s.log + [Entry(Notify, plan.category, true)]), At(Decide(plan, true))))
    case Decide(plan, accept) =>
      if s.row.None? then None
      else Some((Update(s, s.row.value.(decision := if accept then Accepted else Rejected, reason := OtherReason,
                                        category := plan.category, selection := plan.selection)),
                 if accept then At(Window) else Returns))
    case Window =>
      if s.row.None? then None else Some((Update(s, s.row.value.(status := Started)), At(Lock)))
    case _ => None
  }

  function ResumeStep(cfg: Config, s: Store, pc: Pc): Option<(Store, Next)> {
    match pc
    case Lock => Some((s, At(Latest)))
    case Latest =>
      if s.row.None? || s.row.value.status == Complete || s.row.value.status == Suppressed then Some((s, Returns))
      else
        var row := s.row.value;
        Some((s, At(if row.selection == Llm || !cfg.guardOn then Publish
                    else if row.category.Some? then GuardRead(row) else AllowRead(row))))
    case AllowRead(view) =>
      Some((s, At(if LatestJudgement(s.log) == Some(Notify) then Publish else JudgementRead(view))))
    case JudgementRead(view) =>
      if LatestJudgement(s.log) != Some(DoNotNotify) then Some((s, Returns))
      else Some((s, At(if view.selection == TieBreak then Fallback else Suppress)))
    case Fallback =>
      if s.row.None? then None
      else Some((Update(s, s.row.value.(decision := Pending, reason := GuardFallback, needsGemini := true,
                                        status := Unset, retryAt := Some(s.now + FALLBACK_INTERVAL))), Returns))
    case Suppress =>
      if s.row.None? then None else Some((Update(s, s.row.value.(status := Suppressed)), Returns))
    case Publish =>
      // the event is built from a fresh read of the row
      Some((s, At(Send(if s.row.None? then None else s.row.value.category))))
    case Send(event) => Some((s.(published := s.published + [event]), At(MarkComplete)))
    case MarkComplete =>
      if s.row.None? then None else Some((Update(s, s.row.value.(status := Complete)), Returns))
    case _ => None
  }

  /** resolve_category's answer: reclassify durably when it differs. */
  function Resolved(view: Row, resolved: Option<int>): Next {
    At(if resolved.Some? && resolved != view.category then Reclassify(view, resolved.value) else AllowRead(view))
  }

  function GuardStep(s: Store, pc: Pc, choice: Choice): Option<(Store, Next)> {
    match pc
    case GuardRead(view) =>
      (match LatestJudgement(s.log)
       case Some(Notify) => Some((s, Resolved(view, s.log[|s.log| - 1].category)))
       case Some(DoNotNotify) => Some((s, At(AllowRead(view))))
       case _ => Some((s, At(GuardLease(view, s.now)))))
    case GuardLease(view, readAt) => Some((s, At(GuardClaim(view, readAt, s.now))))
    case GuardClaim(view, _, from) =>
      if s.row.Some? && MayClaimGuard(s.row.value, s.now)
      then Some((Update(s, s.row.value.(lease := Some(from + GUARD_LEASE))), At(GuardEval(view, from))))
      else Some((s, At(GuardWait(view, GUARD_POLL_TRIES))))
    case GuardWait(view, tries) =>
      // A verdict found while waiting is used as it is, without the durable reclassification.
      if tries == 0 || LatestJudgement(s.log) == Some(Notify) || LatestJudgement(s.log) == Some(DoNotNotify)
      then Some((s, At(AllowRead(view))))
      else Some((s, At(GuardWait(view, tries - 1))))
    case GuardEval(view, _) =>
      if !choice.Judged? then None
      else
        var category := if choice.judgement == Notify then Some(choice.category) else None;
        Some((s.(log := s.log + [Entry(choice.judgement, category, false)]), Resolved(view, category)))
    case Reclassify(view, resolved) =>
      if s.row.None? then None
      else Some((Update(s, s.row.value.(category := Some(resolved), selection := Llm)), At(AllowRead(view))))
    case _ => None
  }

  predicate InProcess(pc: Pc) {
    pc.Read? || pc.ClaimPending? || pc.MarkStarted? || pc.Classify? || pc.Create? || pc.Reread? || pc.ClaimProject?
    || pc.RejectDuplicate? || pc.Arbitrate? || pc.RecordError? || pc.Rescue? || pc.Decide? || pc.Window?
  }

  predicate InGuard(pc: Pc) {
    pc.GuardRead? || pc.GuardLease? || pc.GuardClaim? || pc.GuardWait? || pc.GuardEval? || pc.Reclassify?
  }

  function Step(cfg: Config, s: Store, pc: Pc, choice: Choice): Option<(Store, Next)> {
    if InProcess(pc) then ProcessStep(cfg, s, pc, choice)
    else if InGuard(pc) then GuardStep(s, pc, choice)
    else ResumeStep(cfg, s, pc)
  }

  /** The world once thread t has made its step. */
  function Commit(w: World, t: int, store: Store, next: Next): World
    requires t in w.threads
  {
    var th := w.threads[t];
    World(store,
          w.done || (next.Returns? && th.kind == Source),
          if next.At? then w.threads[t := th.(pc := next.pc)] else w.threads - {t})
  }

  function Apply(cfg: Config, w: World, e: Event): Option<World> {
    match e
    case Spawn(t, kind) =>
      if t in w.threads then None
      else if kind == Source then Some(w.(threads := w.threads[t := Thread(kind, Read)]))
      else if kind == Sweep && w.store.row.Some? && InClassificationSweep(w.store.row.value, w.store.now) then
        Some(w.(threads := w.threads[t := Thread(kind, Read)]))
      else if kind == Notifier && w.store.row.Some? && InNotificationSweep(w.store.row.value) then
        Some(w.(threads := w.threads[t := Thread(kind, Lock)]))
      else None
    case Act(t, choice) =>
      if t !in w.threads then None
      else (match Step(cfg, w.store, w.threads[t].pc, choice)
        case None => None
        case Some((store, next)) => Some(Commit(w, t, store, next)))
    case Die(t) => if t in w.threads then Some(w.(threads := w.threads - {t})) else None
    case Tick(seconds) => Some(w.(store := w.store.(now := w.store.now + seconds)))
  }

  /** A run: the states it passes through and the events between them. */
  ghost predicate Path(cfg: Config, states: seq<World>, es: seq<Event>) {
    && |states| == |es| + 1
    && forall i :: 0 <= i < |es| ==> Apply(cfg, states[i], es[i]) == Some(states[i + 1])
  }

  ghost predicate Initial(w: World) {
    w.store.row.None? && w.store.log == [] && w.store.published == [] && !w.store.arbitrated
    && !w.done && w.threads == map[]
  }
}
