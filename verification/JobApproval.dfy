/** Nothing is published without approval, and nothing is complete without being published. */
module JobApproval {
  import opened Options
  import opened JobLifecycle

  /** The guard evaluated the job and said notify. */
  ghost predicate GuardSaidNotify(s: Store) {
    exists e <- s.log :: e.judgement == Notify && !e.rescue
  }

  ghost predicate Approved(s: Store) {
    s.arbitrated || GuardSaidNotify(s)
  }

  /** With the guard off every accepted job may go out. */
  ghost predicate Allowed(cfg: Config, s: Store) {
    cfg.guardOn ==> Approved(s)
  }

  /** What a caller at 'pc' already relies on. */
  ghost predicate PcInv(cfg: Config, s: Store, pc: Pc) {
    match pc
    case Create(plan) => plan.selection != Llm
    case ClaimProject(plan) => plan.selection != Llm
    case Arbitrate(plan) => plan.selection != Llm
    case Rescue(plan) => s.arbitrated
    case Decide(plan, _) => plan.selection == Llm ==> s.arbitrated
    case Reclassify(_, _) => Allowed(cfg, s)
    case Publish => Allowed(cfg, s)
    case Send(_) => Allowed(cfg, s)
    case MarkComplete => Allowed(cfg, s) && s.published != []
    case _ => true
  }

  ghost predicate StoreInv(cfg: Config, s: Store) {
    && (s.row.Some? && s.row.value.selection == Llm ==> Allowed(cfg, s))
    && (s.row.Some? && s.row.value.status == Complete ==> s.published != [])
    && (s.published != [] ==> Allowed(cfg, s))
    && (forall e <- s.log :: e.rescue ==> s.arbitrated)
  }

  ghost predicate Inv(cfg: Config, w: World) {
    StoreInv(cfg, w.store) && forall t <- w.threads :: PcInv(cfg, w.store, w.threads[t].pc)
  }

  /** Time passes; the records only grow. */
  ghost predicate Grows(s: Store, s': Store) {
    && s.published <= s'.published && (s.arbitrated ==> s'.arbitrated) && s.log <= s'.log
    && (s.row.Some? ==> s'.row.Some?) && s.now <= s'.now
  }

  lemma GrowingKeepsApproval(s: Store, s': Store)
    requires Grows(s, s') && Approved(s)
    ensures Approved(s')
  {
    assert forall e <- s.log :: e in s'.log;
  }

  lemma PcInvIsStable(cfg: Config, s: Store, s': Store, pc: Pc)
    requires Grows(s, s') && PcInv(cfg, s, pc)
    ensures PcInv(cfg, s', pc)
  {
    if Approved(s) {
      GrowingKeepsApproval(s, s');
    }
  }

  lemma StepGrows(cfg: Config, s: Store, pc: Pc, choice: Choice)
    requires Step(cfg, s, pc, choice).Some?
    ensures Grows(s, Step(cfg, s, pc, choice).value.0) && Step(cfg, s, pc, choice).value.0.now == s.now
  {
    if InProcess(pc) {
      ProcessGrows(cfg, s, pc, choice);
    } else if InGuard(pc) {
      GuardGrows(s, pc, choice);
    } else {
      ResumeGrows(cfg, s, pc);
    }
  }

  lemma ProcessGrows(cfg: Config, s: Store, pc: Pc, choice: Choice)
    requires ProcessStep(cfg, s, pc, choice).Some?
    ensures var s' := ProcessStep(cfg, s, pc, choice).value.0; Grows(s, s') && s'.now == s.now
  {
  }

  lemma GuardGrows(s: Store, pc: Pc, choice: Choice)
    requires GuardStep(s, pc, choice).Some?
    ensures var s' := GuardStep(s, pc, choice).value.0; Grows(s, s') && s'.now == s.now
  {
  }

  lemma ResumeGrows(cfg: Config, s: Store, pc: Pc)
    requires ResumeStep(cfg, s, pc).Some?
    ensures var s' := ResumeStep(cfg, s, pc).value.0; Grows(s, s') && s'.now == s.now
  {
  }

  lemma ProcessKeepsInv(cfg: Config, s: Store, pc: Pc, choice: Choice)
    requires StoreInv(cfg, s) && PcInv(cfg, s, pc) && InProcess(pc) && ProcessStep(cfg, s, pc, choice).Some?
    ensures var (s', next) := ProcessStep(cfg, s, pc, choice).value;
            StoreInv(cfg, s') && (next.At? ==> PcInv(cfg, s', next.pc))
  {
    var (s', next) := ProcessStep(cfg, s, pc, choice).value;
    if Approved(s) {
      GrowingKeepsApproval(s, s');
    }
  }

  lemma ResumeKeepsInv(cfg: Config, s: Store, pc: Pc)
    requires StoreInv(cfg, s) && PcInv(cfg, s, pc) && !InProcess(pc) && ResumeStep(cfg, s, pc).Some?
    ensures var (s', next) := ResumeStep(cfg, s, pc).value;
            StoreInv(cfg, s') && (next.At? ==> PcInv(cfg, s', next.pc))
  {
    var (s', next) := ResumeStep(cfg, s, pc).value;
    if Approved(s) {
      GrowingKeepsApproval(s, s');
    }
    if s.log != [] {
      assert s.log[|s.log| - 1] in s.log;
    }
  }

  lemma GuardKeepsInv(cfg: Config, s: Store, pc: Pc, choice: Choice)
    requires StoreInv(cfg, s) && PcInv(cfg, s, pc) && InGuard(pc) && GuardStep(s, pc, choice).Some?
    ensures var (s', next) := GuardStep(s, pc, choice).value;
            StoreInv(cfg, s') && (next.At? ==> PcInv(cfg, s', next.pc))
  {
    var (s', next) := GuardStep(s, pc, choice).value;
    if Approved(s) {
      GrowingKeepsApproval(s, s');
    }
    if s.log != [] {
      assert s.log[|s.log| - 1] in s.log;
    }
    if pc.GuardEval? {
      assert s'.log[|s.log|] in s'.log;
    }
  }

  lemma StepKeepsInv(cfg: Config, s: Store, pc: Pc, choice: Choice)
    requires StoreInv(cfg, s) && PcInv(cfg, s, pc) && Step(cfg, s, pc, choice).Some?
    ensures var (s', next) := Step(cfg, s, pc, choice).value;
            StoreInv(cfg, s') && (next.At? ==> PcInv(cfg, s', next.pc))
  {
    if InProcess(pc) {
      ProcessKeepsInv(cfg, s, pc, choice);
    } else if InGuard(pc) {
      GuardKeepsInv(cfg, s, pc, choice);
    } else {
      ResumeKeepsInv(cfg, s, pc);
    }
  }

  lemma EventKeepsInv(cfg: Config, w: World, e: Event)
    requires Inv(cfg, w) && Apply(cfg, w, e).Some?
    ensures Inv(cfg, Apply(cfg, w, e).value)
  {
    var w' := Apply(cfg, w, e).value;
    if e.Act? {
      StepGrows(cfg, w.store, w.threads[e.thread].pc, e.choice);
      StepKeepsInv(cfg, w.store, w.threads[e.thread].pc, e.choice);
    }
    assert e.Tick? ==> StoreInv(cfg, w'.store) by {
      if Approved(w.store) {
        GrowingKeepsApproval(w.store, w'.store);
      }
    }
    forall u <- w'.threads ensures PcInv(cfg, w'.store, w'.threads[u].pc) {
      if u in w.threads {
        PcInvIsStable(cfg, w.store, w'.store, w.threads[u].pc);
      }
    }
  }

  /**
   In every run with the guard on, with any callers, crashes and delays: a job is
   published only with the guard's notify or an accepting arbitration behind it,
   and is marked complete only after an event for it is in the stream.
   */
  lemma {:induction false} ApprovedBeforePublished(cfg: Config, states: seq<World>, es: seq<Event>)
    requires Path(cfg, states, es) && Initial(states[0])
    ensures forall w <- states :: Inv(cfg, w) && (cfg.guardOn && w.store.published != [] ==> Approved(w.store))
    ensures forall w <- states :: w.store.row.Some? && w.store.row.value.status == Complete ==> w.store.published != []
  {
    if es == [] {
      assert states == [states[0]];
    } else {
      var n := |es| - 1;
      ApprovedBeforePublished(cfg, states[..n + 1], es[..n]);
      assert states[n] in states[..n + 1];
      assert Apply(cfg, states[n], es[n]) == Some(states[n + 1]);
      EventKeepsInv(cfg, states[n], es[n]);
      assert states == states[..n + 1] + [states[n + 1]];
    }
  }
}
