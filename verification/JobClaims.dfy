/** What the conditional updates promise over whole runs, with any callers, deaths and delays. */
module JobClaims {
  import opened Options
  import opened JobLifecycle

  /** The INSERT that wins. */
  predicate CreatesRow(w: World, e: Event) {
    e.Act? && e.thread in w.threads && w.threads[e.thread].pc.Create? && w.store.row.None?
  }

  /** The conditional UPDATE of the guard lease that wins. */
  predicate WinsGuardClaim(w: World, e: Event) {
    && e.Act? && e.thread in w.threads && w.threads[e.thread].pc.GuardClaim?
    && w.store.row.Some? && MayClaimGuard(w.store.row.value, w.store.now)
  }

  lemma ProcessKeepsLease(cfg: Config, s: Store, pc: Pc, choice: Choice)
    requires s.row.Some? && InProcess(pc) && ProcessStep(cfg, s, pc, choice).Some?
    ensures var s' := ProcessStep(cfg, s, pc, choice).value.0;
            s'.row.Some? && s'.row.value.lease == s.row.value.lease && s'.now == s.now
  {
  }

  lemma ResumeKeepsLease(cfg: Config, s: Store, pc: Pc)
    requires s.row.Some? && ResumeStep(cfg, s, pc).Some?
    ensures var s' := ResumeStep(cfg, s, pc).value.0;
            s'.row.Some? && s'.row.value.lease == s.row.value.lease && s'.now == s.now
  {
  }

  lemma GuardKeepsLease(s: Store, pc: Pc, choice: Choice)
    requires s.row.Some? && InGuard(pc) && GuardStep(s, pc, choice).Some?
    ensures var s' := GuardStep(s, pc, choice).value.0;
            && s'.row.Some? && s'.now == s.now
            && s'.row.value.lease ==
               if pc.GuardClaim? && MayClaimGuard(s.row.value, s.now) then Some(pc.from + GUARD_LEASE)
                   else s.row.value.lease
  {
  }

  /** The row is never deleted, time never goes back, and only a winning claim writes the lease. */
  lemma EventKeepsLease(cfg: Config, w: World, e: Event)
    requires w.store.row.Some? && Apply(cfg, w, e).Some?
    ensures var s' := Apply(cfg, w, e).value.store;
            && s'.row.Some? && w.store.now <= s'.now
            && s'.row.value.lease ==
               if WinsGuardClaim(w, e) then Some(w.threads[e.thread].pc.from + GUARD_LEASE) else w.store.row.value.lease
  {
    if e.Act? {
      var pc := w.threads[e.thread].pc;
      if InProcess(pc) {
        ProcessKeepsLease(cfg, w.store, pc, e.choice);
      } else if InGuard(pc) {
        GuardKeepsLease(w.store, pc, e.choice);
      } else {
        ResumeKeepsLease(cfg, w.store, pc);
      }
    }
  }

  lemma {:induction false} RowStays(cfg: Config, states: seq<World>, es: seq<Event>, i: nat, j: nat)
    requires Path(cfg, states, es) && i <= j <= |es| && states[i].store.row.Some?
    ensures states[j].store.row.Some?
    decreases j
  {
    if i < j {
      RowStays(cfg, states, es, i, j - 1);
      assert Apply(cfg, states[j - 1], es[j - 1]) == Some(states[j]);
      EventKeepsLease(cfg, states[j - 1], es[j - 1]);
    }
  }

  /** However many callers race to create the job, exactly one of them ever does. */
  lemma OneCreator(cfg: Config, states: seq<World>, es: seq<Event>, i: nat, j: nat)
    requires Path(cfg, states, es) && i < j < |es| && CreatesRow(states[i], es[i])
    ensures !CreatesRow(states[j], es[j])
  {
    assert Apply(cfg, states[i], es[i]) == Some(states[i + 1]);
    RowStays(cfg, states, es, i + 1, j);
  }

  lemma OnlyCreateInserts(cfg: Config, w: World, e: Event)
    requires w.store.row.None? && Apply(cfg, w, e).Some? && Apply(cfg, w, e).value.store.row.Some?
    ensures CreatesRow(w, e)
  {
  }

  /** And the row is there exactly when somebody has. */
  lemma {:induction false} RowIffCreated(cfg: Config, states: seq<World>, es: seq<Event>)
    requires Path(cfg, states, es) && Initial(states[0])
    ensures states[|es|].store.row.Some? <==> exists i | 0 <= i < |es| :: CreatesRow(states[i], es[i])
  {
    if i :| 0 <= i < |es| && CreatesRow(states[i], es[i]) {
      assert Apply(cfg, states[i], es[i]) == Some(states[i + 1]);
      RowStays(cfg, states, es, i + 1, |es|);
    } else if es != [] {
      var n := |es| - 1;
      var before := states[..n + 1];
      assert forall k | 0 <= k < n :: before[k] == states[k] && es[..n][k] == es[k];
      RowIffCreated(cfg, before, es[..n]);
      assert Apply(cfg, states[n], es[n]) == Some(states[n + 1]);
      if states[n + 1].store.row.Some? {
        OnlyCreateInserts(cfg, states[n], es[n]);
      }
    }
  }

  /** After a winning claim its lease stands until it has run out. */
  lemma {:induction false} LeaseSince(cfg: Config, states: seq<World>, es: seq<Event>, i: nat, k: nat)
    requires Path(cfg, states, es) && i < k <= |es| && WinsGuardClaim(states[i], es[i])
    ensures var end := states[i].threads[es[i].thread].pc.from + GUARD_LEASE;
            && states[k].store.row.Some?
            && (states[k].store.row.value.lease == Some(end) || states[k].store.now >= end)
    decreases k
  {
    assert Apply(cfg, states[k - 1], es[k - 1]) == Some(states[k]);
    if k > i + 1 {
      LeaseSince(cfg, states, es, i, k - 1);
    }
    EventKeepsLease(cfg, states[k - 1], es[k - 1]);
  }

  /** Whoever calls, dies or stalls, two winning claims of one job's evaluation are a whole lease apart. */
  lemma GuardClaimsApart(cfg: Config, states: seq<World>, es: seq<Event>, i: nat, j: nat)
    requires Path(cfg, states, es) && i < j < |es|
    requires WinsGuardClaim(states[i], es[i]) && WinsGuardClaim(states[j], es[j])
    ensures states[j].store.now >= states[i].threads[es[i].thread].pc.from + GUARD_LEASE
  {
    LeaseSince(cfg, states, es, i, j);
  }
}
