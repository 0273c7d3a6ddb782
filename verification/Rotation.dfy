/**
 Trying LLM candidates in turn under a deadline, with a cooldown table that
 learns from each failure. Time is in milliseconds and passes only while a
 provider is called.
 */
module Rotation {
  import opened Options

  const DAILY_BASE: nat := 1_800_000
  const DAILY_MAX: nat := 14_400_000
  const PERMANENT: nat := 21_600_000

  /** Unavailable-until times, and daily-quota failures since the last success. */
  datatype Tracker = Tracker(cooldowns: map<string, int>, counts: map<string, nat>)

  datatype Candidate = Candidate(id: string, name: string)

  /** What the tracker's text tests say of a failed call. */
  datatype Failure = Failure(truncated: bool, quota: bool, transient: bool, perDay: bool, retryAfter: Option<nat>)

  datatype Call = Call(failure: Option<Failure>, cost: nat)

  datatype Policy = Policy(defaultCooldown: nat, unknownIsPermanent: bool)

  // ---- the tracker ----

  predicate Available(t: Tracker, id: string, now: int) { id in t.cooldowns ==> now >= t.cooldowns[id] }

  function Count(t: Tracker, id: string): nat { if id in t.counts then t.counts[id] else 0 }

  function Pow2(k: nat): (r: nat)
    ensures r > 0
  {
    if k == 0 then 1 else 2 * Pow2(k - 1)
  }

  function DailyDelay(k: nat): nat
    requires k > 0
  {
    if DAILY_BASE * Pow2(k - 1) < DAILY_MAX then DAILY_BASE * Pow2(k - 1) else DAILY_MAX
  }

  function RateLimited(t: Tracker, id: string, f: Failure, now: int, policy: Policy): Tracker {
    if f.perDay then
      var k := Count(t, id) + 1;
      Tracker(t.cooldowns[id := now + DailyDelay(k)], t.counts[id := k])
    else
      t.(cooldowns := t.cooldowns[id := now + if f.retryAfter.Some? then f.retryAfter.value
          else policy.defaultCooldown])
  }

  function Succeeded(t: Tracker, id: string): Tracker { Tracker(t.cooldowns - {id}, t.counts - {id}) }

  function Broken(t: Tracker, id: string, now: int): Tracker { t.(cooldowns := t.cooldowns[id := now + PERMANENT]) }

  /** What one failure teaches. */
  function AfterFailure(t: Tracker, id: string, f: Failure, now: int, policy: Policy): Tracker {
    if f.truncated then t
    else if f.quota then RateLimited(t, id, f, now, policy)
    else if f.transient then t
    else if policy.unknownIsPermanent then Broken(t, id, now)
    else t
  }

  function AvailableIds(t: Tracker, candidates: seq<Candidate>, now: int): set<string> {
    set c | c in candidates && Available(t, c.id, now) :: c.id
  }

  /** filter_available: all of them when none is available. */
  function Eligible(t: Tracker, candidates: seq<Candidate>, now: int): set<string> {
    if AvailableIds(t, candidates, now) == {} then (set c | c in candidates :: c.id)
        else AvailableIds(t, candidates, now)
  }

  // ---- one rotation, as a function ----

  /** Candidate number 'index' was called at 'start'. */
  datatype Attempt = Attempt(index: nat, start: int)

  datatype Ending = Won(index: nat) | AllFailed | DeadlineReached | NothingTried

  datatype Rotation = Rotation(ending: Ending, tracker: Tracker, now: int, attempts: seq<Attempt>)

  predicate Past(deadline: Option<int>, now: int) { deadline.Some? && now >= deadline.value }

  /** The loop from candidate i, after 'attempts'. */
  function RotateFrom(
      candidates: seq<Candidate>, i: nat, eligible: set<string>, calls: nat -> Call, deadline: Option<int>,
      policy: Policy, t: Tracker, now: int, attempts: seq<Attempt>): Rotation
    requires i <= |candidates|
    decreases |candidates| - i
  {
    if i == |candidates| then Rotation(if attempts == [] then NothingTried else AllFailed, t, now, attempts)
    else if Past(deadline, now) then Rotation(DeadlineReached, t, now, attempts)
    else if candidates[i].id !in eligible then
      RotateFrom(candidates, i + 1, eligible, calls, deadline, policy, t, now, attempts)
    else
      var c, tried, later := candidates[i], attempts + [Attempt(i, now)], now + calls(i).cost;
      match calls(i).failure
      case None => Rotation(Won(i), Succeeded(t, c.id), later, tried)
      case Some(f) =>
        var t' := AfterFailure(t, c.id, f, later, policy);
        if Past(deadline, later) then Rotation(DeadlineReached, t', later, tried)
        else RotateFrom(candidates, i + 1, eligible, calls, deadline, policy, t', later, tried)
  }

  /** run_with_rotation. */
  function Rotate(candidates: seq<Candidate>, calls: nat -> Call, deadline: Option<int>, policy: Policy, t: Tracker,
      now: int): Rotation {
    RotateFrom(candidates, 0, Eligible(t, candidates, now), calls, deadline, policy, t, now, [])
  }

  // ---- the code ----

  class RateLimits {
    var cooldowns: map<string, int>
    var counts: map<string, nat>
    const policy: Policy

    constructor (policy: Policy)
      ensures State() == Tracker(map[], map[]) && this.policy == policy
    {
      cooldowns, counts := map[], map[];
      this.policy := policy;
    }

    ghost function State(): Tracker
      reads this
    {
      Tracker(cooldowns, counts)
    }

    method MarkRateLimited(id: string, f: Failure, now: int) returns (delay: nat)
      modifies this
      ensures State() == RateLimited(old(State()), id, f, now, policy)
      ensures id in cooldowns && cooldowns[id] == now + delay
    {
      if f.perDay {
        var count := (if id in counts then counts[id] else 0) + 1;
        counts := counts[id := count];
        delay := DailyDelay(count);
      } else {
        delay := if f.retryAfter.Some? then f.retryAfter.value else policy.defaultCooldown;
      }
      cooldowns := cooldowns[id := now + delay];
    }

    method MarkSuccess(id: string)
      modifies this
      ensures State() == Succeeded(old(State()), id)
    {
      counts := counts - {id};
      cooldowns := cooldowns - {id};
    }

    method MarkPermanentlyBroken(id: string, now: int)
      modifies this`cooldowns
      ensures State() == Broken(old(State()), id, now)
    {
      cooldowns := cooldowns[id := now + PERMANENT];
    }

    method FilterAvailable(candidates: seq<Candidate>, now: int) returns (ids: set<string>)
      ensures ids == Eligible(State(), candidates, now)
    {
      ids := {};
      for i := 0 to |candidates|
        invariant ids == AvailableIds(State(), candidates[..i], now)
      {
        assert candidates[..i + 1] == candidates[..i] + [candidates[i]];
        if candidates[i].id !in cooldowns || now >= cooldowns[candidates[i].id] {
          ids := ids + {candidates[i].id};
        }
      }
      assert candidates[..|candidates|] == candidates;
      if ids == {} {
        ids := set c | c in candidates :: c.id;
      }
    }

    method RunWithRotation(candidates: seq<Candidate>, calls: nat -> Call, deadline: Option<int>, start: int)
      returns (ending: Ending, now: int, ghost attempts: seq<Attempt>)
      modifies this
      ensures Rotation(ending, State(), now, attempts)
          == Rotate(candidates, calls, deadline, policy, old(State()), start)
    {
      now := start;
      attempts := [];
      var failures := 0;
      var eligible := FilterAvailable(candidates, now);
      ghost var whole := Rotate(candidates, calls, deadline, policy, State(), start);
      var i := 0;
      while i < |candidates|
        invariant i <= |candidates| && failures == |attempts|
        invariant whole == RotateFrom(candidates, i, eligible, calls, deadline, policy, State(), now, attempts)
      {
        if deadline.Some? && now >= deadline.value {
          return DeadlineReached, now, attempts;
        }
        var id := candidates[i].id;
        if id in eligible {
          attempts := attempts + [Attempt(i, now)];
          var call := calls(i);
          now := now + call.cost;
          if call.failure.None? {
            MarkSuccess(id);
            return Won(i), now, attempts;
          }
          failures := failures + 1;
          var f := call.failure.value;
          if !f.truncated {
            if f.quota {
              var _ := MarkRateLimited(id, f, now);
            } else if !f.transient && policy.unknownIsPermanent {
              MarkPermanentlyBroken(id, now);
            }
          }
          if deadline.Some? && now >= deadline.value {
            return DeadlineReached, now, attempts;
          }
        }
        i := i + 1;
      }
      return if failures > 0 then AllFailed else NothingTried, now, attempts;
    }
  }

  // ---- who is tried ----

  function EligibleFrom(candidates: seq<Candidate>, i: nat, eligible: set<string>): seq<nat>
    requires i <= |candidates|
    decreases |candidates| - i
  {
    if i == |candidates| then []
    else (if candidates[i].id in eligible then [i] else []) + EligibleFrom(candidates, i + 1, eligible)
  }

  function Indices(attempts: seq<Attempt>): (r: seq<nat>)
    ensures |r| == |attempts| && forall k | 0 <= k < |r| :: r[k] == attempts[k].index
  {
    seq(|attempts|, k requires 0 <= k < |attempts| => attempts[k].index)
  }

  ghost predicate Prefix(xs: seq<nat>, ys: seq<nat>) { |xs| <= |ys| && xs == ys[..|xs|] }

  lemma OneMoreTried(candidates: seq<Candidate>, i: nat, eligible: set<string>, attempts: seq<Attempt>, now: int)
    requires i < |candidates| && candidates[i].id in eligible
    ensures Indices(attempts + [Attempt(i, now)]) + EligibleFrom(candidates, i + 1, eligible) ==
            Indices(attempts) + EligibleFrom(candidates, i, eligible)
  {
    assert Indices(attempts + [Attempt(i, now)]) == Indices(attempts) + [i];
    var later := EligibleFrom(candidates, i + 1, eligible);
    assert EligibleFrom(candidates, i, eligible) == [i] + later;
    Regroup(Indices(attempts), i, later);
  }

  lemma Regroup(tried: seq<nat>, i: nat, later: seq<nat>)
    ensures tried + [i] + later == tried + ([i] + later)
  {
  }

  /** Those tried are the first of those eligible, in order; all of them if every one failed in time. */
  lemma {:induction false} TriedInOrder(
      candidates: seq<Candidate>, i: nat, eligible: set<string>, calls: nat -> Call, deadline: Option<int>,
      policy: Policy, t: Tracker, now: int, attempts: seq<Attempt>)
    requires i <= |candidates|
    ensures var r := RotateFrom(candidates, i, eligible, calls, deadline, policy, t, now, attempts);
            var all := Indices(attempts) + EligibleFrom(candidates, i, eligible);
            && Prefix(Indices(r.attempts), all)
            && (r.ending == AllFailed || r.ending == NothingTried ==> Indices(r.attempts) == all)
    decreases |candidates| - i
  {
    if i < |candidates| && !Past(deadline, now) {
      if candidates[i].id !in eligible {
        TriedInOrder(candidates, i + 1, eligible, calls, deadline, policy, t, now, attempts);
      } else {
        var tried, later := attempts + [Attempt(i, now)], now + calls(i).cost;
        OneMoreTried(candidates, i, eligible, attempts, now);
        if calls(i).failure.Some? && !Past(deadline, later) {
          var t' := AfterFailure(t, candidates[i].id, calls(i).failure.value, later, policy);
          TriedInOrder(candidates, i + 1, eligible, calls, deadline, policy, t', later, tried);
        }
      }
    }
  }

  ghost predicate AllOfThemFailed(calls: nat -> Call, attempts: seq<Attempt>) {
    forall a <- attempts :: calls(a.index).failure.Some?
  }

  /** Everything before a win failed, and without a win everything did. */
  lemma {:induction false} FirstSuccessWins(
      candidates: seq<Candidate>, i: nat, eligible: set<string>, calls: nat -> Call, deadline: Option<int>,
      policy: Policy, t: Tracker, now: int, attempts: seq<Attempt>)
    requires i <= |candidates| && AllOfThemFailed(calls, attempts)
    ensures var r := RotateFrom(candidates, i, eligible, calls, deadline, policy, t, now, attempts);
            var n := |r.attempts|;
            if r.ending.Won?
            then n > 0 && r.attempts[n - 1].index == r.ending.index && calls(r.ending.index).failure.None?
                 && AllOfThemFailed(calls, r.attempts[..n - 1])
            else AllOfThemFailed(calls, r.attempts)
    decreases |candidates| - i
  {
    if i < |candidates| && !Past(deadline, now) {
      if candidates[i].id !in eligible {
        FirstSuccessWins(candidates, i + 1, eligible, calls, deadline, policy, t, now, attempts);
      } else {
        var tried, later := attempts + [Attempt(i, now)], now + calls(i).cost;
        if calls(i).failure.None? {
          assert tried[..|attempts|] == attempts;
        } else if !Past(deadline, later) {
          var t' := AfterFailure(t, candidates[i].id, calls(i).failure.value, later, policy);
          FirstSuccessWins(candidates, i + 1, eligible, calls, deadline, policy, t', later, tried);
        }
      }
    }
  }

  // ---- when ----

  lemma {:induction false} StartsBeforeDeadline(
      candidates: seq<Candidate>, i: nat, eligible: set<string>, calls: nat -> Call, deadline: int,
      policy: Policy, t: Tracker, now: int, attempts: seq<Attempt>)
    requires i <= |candidates| && forall a <- attempts :: a.start < deadline
    ensures forall a <- RotateFrom(candidates, i, eligible, calls, Some(deadline), policy, t, now, attempts).attempts ::
        a.start < deadline
    decreases |candidates| - i
  {
    if i < |candidates| && now < deadline {
      if candidates[i].id !in eligible {
        StartsBeforeDeadline(candidates, i + 1, eligible, calls, deadline, policy, t, now, attempts);
      } else if calls(i).failure.Some? {
        var tried, later := attempts + [Attempt(i, now)], now + calls(i).cost;
        var t' := AfterFailure(t, candidates[i].id, calls(i).failure.value, later, policy);
        StartsBeforeDeadline(candidates, i + 1, eligible, calls, deadline, policy, t', later, tried);
      }
    }
  }

  /** If no call takes longer than 'bound', the rotation ends where it began or within one call of the deadline. */
  lemma {:induction false} EndsInTime(
      candidates: seq<Candidate>, i: nat, eligible: set<string>, calls: nat -> Call, deadline: int, bound: nat,
      policy: Policy, t: Tracker, now: int, attempts: seq<Attempt>)
    requires i <= |candidates| && forall k :: calls(k).cost <= bound
    ensures var r := RotateFrom(candidates, i, eligible, calls, Some(deadline), policy, t, now, attempts);
            now <= r.now && (r.now == now || r.now < deadline + bound)
    decreases |candidates| - i
  {
    if i < |candidates| && now < deadline {
      if candidates[i].id !in eligible {
        EndsInTime(candidates, i + 1, eligible, calls, deadline, bound, policy, t, now, attempts);
      } else if calls(i).failure.Some? {
        var tried, later := attempts + [Attempt(i, now)], now + calls(i).cost;
        var t' := AfterFailure(t, candidates[i].id, calls(i).failure.value, later, policy);
        EndsInTime(candidates, i + 1, eligible, calls, deadline, bound, policy, t', later, tried);
      }
    }
  }

  // ---- what changes ----

  ghost predicate SameFor(t: Tracker, u: Tracker, id: string) {
    && (id in t.cooldowns <==> id in u.cooldowns) && (id in t.cooldowns ==> t.cooldowns[id] == u.cooldowns[id])
    && Count(t, id) == Count(u, id)
  }

  /** None of the attempts from number 'from' on called 'id'. */
  ghost predicate Untried(candidates: seq<Candidate>, attempts: seq<Attempt>, from: nat, id: string) {
    forall k | from <= k < |attempts| :: attempts[k].index < |candidates| && candidates[attempts[k].index].id != id
  }

  /** Only candidates that were called change in the table. */
  lemma {:induction false} OnlyTriedChange(
      candidates: seq<Candidate>, i: nat, eligible: set<string>, calls: nat -> Call, deadline: Option<int>,
      policy: Policy, t: Tracker, now: int, attempts: seq<Attempt>, id: string)
    requires i <= |candidates|
    ensures var r := RotateFrom(candidates, i, eligible, calls, deadline, policy, t, now, attempts);
            && |attempts| <= |r.attempts| && (forall k | 0 <= k < |attempts| :: r.attempts[k] == attempts[k])
            && (Untried(candidates, r.attempts, |attempts|, id) ==> SameFor(t, r.tracker, id))
    decreases |candidates| - i
  {
    if i < |candidates| && !Past(deadline, now) {
      if candidates[i].id !in eligible {
        OnlyTriedChange(candidates, i + 1, eligible, calls, deadline, policy, t, now, attempts, id);
      } else {
        var tried, later := attempts + [Attempt(i, now)], now + calls(i).cost;
        if calls(i).failure.Some? {
          var t' := AfterFailure(t, candidates[i].id, calls(i).failure.value, later, policy);
          FailureIsLocal(t, candidates[i].id, calls(i).failure.value, later, policy, id);
          OnlyTriedChange(candidates, i + 1, eligible, calls, deadline, policy, t', later, tried, id);
        }
        var r := RotateFrom(candidates, i, eligible, calls, deadline, policy, t, now, attempts);
        assert r.attempts[|attempts|] == tried[|attempts|] == Attempt(i, now);
      }
    }
  }

  lemma FailureIsLocal(t: Tracker, tried: string, f: Failure, now: int, policy: Policy, id: string)
    ensures tried != id ==> SameFor(t, AfterFailure(t, tried, f, now, policy), id)
  {
  }

  /**
   Main result: a rotation tries, in the configured order, the candidates not
   cooling down (all of them if all are), up to the first that succeeds or the
   deadline; none starts at or after the deadline; the table changes only for
   those tried; and a win leaves its candidate available with a clean record.
   */
  lemma RotationMeans(candidates: seq<Candidate>, calls: nat -> Call, deadline: Option<int>, policy: Policy,
      t: Tracker, now: int)
    ensures var r := Rotate(candidates, calls, deadline, policy, t, now);
            var eligible := EligibleFrom(candidates, 0, Eligible(t, candidates, now));
            && Prefix(Indices(r.attempts), eligible)
            && (r.ending == AllFailed || r.ending == NothingTried ==> Indices(r.attempts) == eligible)
            && (if r.ending.Won?
                then r.attempts != [] && r.attempts[|r.attempts| - 1].index == r.ending.index
                     && calls(r.ending.index).failure.None? && AllOfThemFailed(calls, r.attempts[..|r.attempts| - 1])
                else AllOfThemFailed(calls, r.attempts))
            && (deadline.Some? ==> forall a <- r.attempts :: a.start < deadline.value)
            && (forall id | Untried(candidates, r.attempts, 0, id) :: SameFor(t, r.tracker, id))
  {
    RotationInOrder(candidates, calls, deadline, policy, t, now);
    FirstSuccessWins(candidates, 0, Eligible(t, candidates, now), calls, deadline, policy, t, now, []);
    if deadline.Some? {
      StartsBeforeDeadline(candidates, 0, Eligible(t, candidates, now), calls, deadline.value, policy, t, now, []);
    }
    forall id | Untried(candidates, Rotate(candidates, calls, deadline, policy, t, now).attempts, 0, id)
      ensures SameFor(t, Rotate(candidates, calls, deadline, policy, t, now).tracker, id)
    {
      UntriedUnchanged(candidates, calls, deadline, policy, t, now, id);
    }
  }

  lemma RotationInOrder(candidates: seq<Candidate>, calls: nat -> Call, deadline: Option<int>, policy: Policy,
      t: Tracker, now: int)
    ensures var r := Rotate(candidates, calls, deadline, policy, t, now);
            var eligible := EligibleFrom(candidates, 0, Eligible(t, candidates, now));
            && Prefix(Indices(r.attempts), eligible)
            && (r.ending == AllFailed || r.ending == NothingTried ==> Indices(r.attempts) == eligible)
  {
    var eligible := Eligible(t, candidates, now);
    TriedInOrder(candidates, 0, eligible, calls, deadline, policy, t, now, []);
    assert Indices([]) + EligibleFrom(candidates, 0, eligible) == EligibleFrom(candidates, 0, eligible);
  }

  lemma UntriedUnchanged(candidates: seq<Candidate>, calls: nat -> Call, deadline: Option<int>, policy: Policy,
      t: Tracker, now: int, id: string)
    requires Untried(candidates, Rotate(candidates, calls, deadline, policy, t, now).attempts, 0, id)
    ensures SameFor(t, Rotate(candidates, calls, deadline, policy, t, now).tracker, id)
  {
    var r := Rotate(candidates, calls, deadline, policy, t, now);
    OnlyTriedChange(candidates, 0, Eligible(t, candidates, now), calls, deadline, policy, t, now, [], id);
  }

  /** A win leaves the winner available at once, with no failures held against it. */
  lemma {:induction false} WinnerIsCleared(
      candidates: seq<Candidate>, i: nat, eligible: set<string>, calls: nat -> Call, deadline: Option<int>,
      policy: Policy, t: Tracker, now: int, attempts: seq<Attempt>)
    requires i <= |candidates|
    ensures var r := RotateFrom(candidates, i, eligible, calls, deadline, policy, t, now, attempts);
            r.ending.Won? ==>
              && i <= r.ending.index < |candidates|
              && var id := candidates[r.ending.index].id;
                 id in eligible && Available(r.tracker, id, r.now) && Count(r.tracker, id) == 0
    decreases |candidates| - i
  {
    if i < |candidates| && !Past(deadline, now) {
      if candidates[i].id !in eligible {
        WinnerIsCleared(candidates, i + 1, eligible, calls, deadline, policy, t, now, attempts);
      } else if calls(i).failure.Some? {
        var later := now + calls(i).cost;
        var t' := AfterFailure(t, candidates[i].id, calls(i).failure.value, later, policy);
        WinnerIsCleared(candidates, i + 1, eligible, calls, deadline, policy, t', later, attempts + [Attempt(i, now)]);
      }
    }
  }

  // ---- escalation ----

  datatype Mark = Failed(failure: Failure, at: int) | Worked

  function AfterMarks(t: Tracker, id: string, marks: seq<Mark>, policy: Policy): Tracker
    decreases |marks|
  {
    if marks == [] then t
    else
      AfterMark(AfterMarks(t, id, marks[..|marks| - 1], policy), id, marks[|marks| - 1], policy)
  }

  function AfterMark(t: Tracker, id: string, m: Mark, policy: Policy): Tracker {
    match m
    case Failed(f, at) => AfterFailure(t, id, f, at, policy)
    case Worked => Succeeded(t, id)
  }

  /** Escalating failures: not cut short, a quota failure, of the per-day kind. */
  predicate Daily(m: Mark) { m.Failed? && !m.failure.truncated && m.failure.quota && m.failure.perDay }

  function DailySinceSuccess(marks: seq<Mark>): nat
    decreases |marks|
  {
    if marks == [] || marks[|marks| - 1].Worked? then 0
    else DailySinceSuccess(marks[..|marks| - 1]) + if Daily(marks[|marks| - 1]) then 1 else 0
  }

  /** Whatever else happens in between, only daily failures count, and only a success forgets them. */
  lemma {:induction false} CountIsDailySinceSuccess(t: Tracker, id: string, marks: seq<Mark>, policy: Policy)
    requires Count(t, id) == 0
    ensures Count(AfterMarks(t, id, marks, policy), id) == DailySinceSuccess(marks)
    decreases |marks|
  {
    if marks != [] {
      CountIsDailySinceSuccess(t, id, marks[..|marks| - 1], policy);
    }
  }

  lemma {:induction false} Pow2Grows(k: nat, m: nat)
    requires k <= m
    ensures Pow2(k) <= Pow2(m)
  {
    if k < m {
      Pow2Grows(k, m - 1);
    }
  }

  /** The k-th daily failure in a row keeps the candidate out for 30, 60, 120 and then 240 minutes every time. */
  lemma EscalationLadder(t: Tracker, id: string, marks: seq<Mark>, f: Failure, at: int, policy: Policy)
    requires Count(t, id) == 0 && Daily(Failed(f, at))
    ensures var after := AfterMarks(t, id, marks + [Failed(f, at)], policy);
            var k := DailySinceSuccess(marks) + 1;
            var wait := if k == 1 then DAILY_BASE else if k == 2 then 2 * DAILY_BASE
                        else if k == 3 then 4 * DAILY_BASE else DAILY_MAX;
            forall now | now >= at :: Available(after, id, now) <==> now >= at + wait
  {
    var all := marks + [Failed(f, at)];
    assert all[..|all| - 1] == marks;
    CountIsDailySinceSuccess(t, id, marks, policy);
    var k := DailySinceSuccess(marks) + 1;
    assert Pow2(0) == 1 && Pow2(1) == 2 && Pow2(2) == 4 && Pow2(3) == 8;
    if k > 3 {
      Pow2Grows(3, k - 1);
    }
  }

  // ---- when a candidate is available ----

  /** How long mark number i takes a candidate out, if it does: the kinds of failure one by one, in milliseconds. */
  function Wait(marks: seq<Mark>, i: nat, policy: Policy): Option<int>
    requires i < |marks|
  {
    match marks[i]
    case Worked => None
    case Failed(f, _) =>
      if f.truncated || (f.transient && !f.quota) then None
      else if !f.quota then (if policy.unknownIsPermanent then Some(21_600_000) else None)
      else if f.perDay then
        var k := DailySinceSuccess(marks[..i + 1]);
        Some(if k == 1 then 1_800_000 else if k == 2 then 3_600_000 else if k == 3 then 7_200_000 else 14_400_000)
      else if f.retryAfter.Some? then Some(f.retryAfter.value)
      else Some(policy.defaultCooldown)
  }

  /** Mark i took the candidate out, and nothing since did so again or succeeded. */
  ghost predicate LastOut(marks: seq<Mark>, i: nat, policy: Policy) {
    && i < |marks| && Wait(marks, i, policy).Some?
    && forall j: nat | i < j < |marks| :: marks[j].Failed? && Wait(marks, j, policy).None?
  }

  lemma WaitOfPrefix(marks: seq<Mark>, n: nat, policy: Policy)
    requires n <= |marks|
    ensures forall i: nat | i < n :: Wait(marks[..n], i, policy) == Wait(marks, i, policy)
  {
    forall i: nat | i < n ensures Wait(marks[..n], i, policy) == Wait(marks, i, policy) {
      assert marks[..n][..i + 1] == marks[..i + 1];
    }
  }

  /** One failure sets the time to come back at exactly when it takes the candidate out. */
  lemma FailureSets(t: Tracker, id: string, marks: seq<Mark>, policy: Policy)
    requires marks != [] && marks[|marks| - 1].Failed?
    requires Count(t, id) == DailySinceSuccess(marks[..|marks| - 1])
    ensures var n := |marks| - 1;
            var after := AfterFailure(t, id, marks[n].failure, marks[n].at, policy);
            match Wait(marks, n, policy)
            case None => after == t
            case Some(wait) => id in after.cooldowns && after.cooldowns[id] == marks[n].at + wait
  {
    var n := |marks| - 1;
    assert marks[..n + 1] == marks;
    var k := Count(t, id) + 1;
    assert Pow2(0) == 1 && Pow2(1) == 2 && Pow2(2) == 4 && Pow2(3) == 8;
    if k > 3 {
      Pow2Grows(3, k - 1);
    }
  }

  /** The table holds the candidate exactly when some mark took it out last, and then until that mark's time is over. */
  lemma {:induction false} OutUntil(t: Tracker, id: string, marks: seq<Mark>, policy: Policy)
    requires Count(t, id) == 0 && id !in t.cooldowns
    ensures var after := AfterMarks(t, id, marks, policy);
            && (id in after.cooldowns ==> exists i: nat :: LastOut(marks, i, policy))
            && forall i: nat | LastOut(marks, i, policy) ::
                 id in after.cooldowns && after.cooldowns[id] == marks[i].at + Wait(marks, i, policy).value
    decreases |marks|
  {
    if marks != [] {
      var n := |marks| - 1;
      OutUntil(t, id, marks[..n], policy);
      CountIsDailySinceSuccess(t, id, marks[..n], policy);
      WaitOfPrefix(marks, n, policy);
      if marks[n].Failed? {
        FailureSets(AfterMarks(t, id, marks[..n], policy), id, marks, policy);
        LastOutStep(marks, policy);
        if Wait(marks, n, policy).Some? {
          assert LastOut(marks, n, policy);
        } else if id in AfterMarks(t, id, marks, policy).cooldowns {
          var i: nat :| LastOut(marks[..n], i, policy);
          assert LastOut(marks, i, policy);
        }
      }
    }
  }

  lemma LastOutStep(marks: seq<Mark>, policy: Policy)
    requires marks != [] && marks[|marks| - 1].Failed?
    ensures var n := |marks| - 1;
            forall i: nat :: LastOut(marks, i, policy) <==>
              if Wait(marks, n, policy).Some? then i == n else LastOut(marks[..n], i, policy)
  {
    var n := |marks| - 1;
    var before := marks[..n];
    WaitOfPrefix(marks, n, policy);
    forall i: nat
      ensures LastOut(marks, i, policy) <==> if Wait(marks, n, policy).Some? then i == n else LastOut(before, i, policy)
    {
      if i < n && LastOut(before, i, policy) && Wait(marks, n, policy).None? {
        forall j: nat | i < j < |marks| ensures marks[j].Failed? && Wait(marks, j, policy).None? {
          if j < n {
            assert before[j].Failed? && Wait(before, j, policy).None?;
          }
        }
      }
      if i < n && LastOut(marks, i, policy) {
        forall j: nat | i < j < n ensures before[j].Failed? && Wait(before, j, policy).None? {
          assert marks[j].Failed? && Wait(marks, j, policy).None?;
        }
      }
    }
  }

  /**
   Main result: whatever has happened to a candidate with a clean record, it is
   available exactly when no failure since its last success took it out, or the last
   that did is over.
   */
  lemma AvailableIff(t: Tracker, id: string, marks: seq<Mark>, policy: Policy, now: int)
    requires Count(t, id) == 0 && id !in t.cooldowns
    ensures Available(AfterMarks(t, id, marks, policy), id, now) <==>
            forall i: nat | LastOut(marks, i, policy) :: now >= marks[i].at + Wait(marks, i, policy).value
  {
    OutUntil(t, id, marks, policy);
  }

  // ---- what a rotation leaves of each candidate ----

  ghost predicate InRange(candidates: seq<Candidate>, attempts: seq<Attempt>) {
    forall a <- attempts :: a.index < |candidates|
  }

  /** What an attempt was for its candidate, judged at the moment its call came back. */
  ghost function MarkOf(calls: nat -> Call, attempt: Attempt): Mark {
    match calls(attempt.index).failure
    case None => Worked
    case Some(f) => Failed(f, attempt.start + calls(attempt.index).cost)
  }

  /** The attempts at this id. */
  ghost function MarksOf(candidates: seq<Candidate>, calls: nat -> Call, attempts: seq<Attempt>, id: string): seq<Mark>
    requires InRange(candidates, attempts)
  {
    if attempts == [] then []
    else
      var last := attempts[|attempts| - 1];
      MarksOf(candidates, calls, attempts[..|attempts| - 1], id)
      + if candidates[last.index].id == id then [MarkOf(calls, last)] else []
  }

  /** Each attempt begins when the one before it is over; 'end' is when the last one is. */
  ghost predicate OneAfterAnother(calls: nat -> Call, attempts: seq<Attempt>, start: int, end: int) {
    if attempts == [] then end == start
    else
      var last := attempts[|attempts| - 1];
      end == last.start + calls(last.index).cost
      && OneAfterAnother(calls, attempts[..|attempts| - 1], start, last.start)
  }

  /** t says of id what the marks of the attempts make of t0. */
  ghost predicate Tells(candidates: seq<Candidate>, calls: nat -> Call, attempts: seq<Attempt>, policy: Policy,
      t0: Tracker, t: Tracker, id: string) {
    InRange(candidates, attempts)
    && SameFor(AfterMarks(t0, id, MarksOf(candidates, calls, attempts, id), policy), t, id)
  }

  lemma SameMark(t: Tracker, u: Tracker, id: string, m: Mark, policy: Policy)
    requires SameFor(t, u, id)
    ensures SameFor(AfterMark(t, id, m, policy), AfterMark(u, id, m, policy), id)
  {
  }

  lemma OtherMark(t: Tracker, tried: string, m: Mark, policy: Policy, id: string)
    requires tried != id
    ensures SameFor(t, AfterMark(t, tried, m, policy), id)
  {
  }

  lemma MarksGrow(candidates: seq<Candidate>, calls: nat -> Call, attempts: seq<Attempt>, id: string, a: Attempt)
    requires InRange(candidates, attempts) && a.index < |candidates|
    ensures InRange(candidates, attempts + [a])
    ensures MarksOf(candidates, calls, attempts + [a], id) ==
            MarksOf(candidates, calls, attempts, id) + if candidates[a.index].id == id then [MarkOf(calls, a)] else []
  {
    assert (attempts + [a])[..|attempts|] == attempts;
  }

  lemma LastMark(t: Tracker, id: string, marks: seq<Mark>, policy: Policy, m: Mark)
    ensures AfterMarks(t, id, marks + [m], policy) == AfterMark(AfterMarks(t, id, marks, policy), id, m, policy)
  {
    assert (marks + [m])[..|marks|] == marks;
  }

  lemma OneMoreMark(candidates: seq<Candidate>, calls: nat -> Call, attempts: seq<Attempt>, policy: Policy,
      t0: Tracker, t: Tracker, id: string, a: Attempt)
    requires a.index < |candidates| && Tells(candidates, calls, attempts, policy, t0, t, id)
    ensures Tells(candidates, calls, attempts + [a], policy, t0,
        AfterMark(t, candidates[a.index].id, MarkOf(calls, a), policy), id)
  {
    var marks, m, tried := MarksOf(candidates, calls, attempts, id), MarkOf(calls, a), candidates[a.index].id;
    MarksGrow(candidates, calls, attempts, id, a);
    if tried == id {
      LastMark(t0, id, marks, policy, m);
      SameMark(AfterMarks(t0, id, marks, policy), t, id, m, policy);
    } else {
      OtherMark(t, tried, m, policy, id);
      assert marks + [] == marks;
    }
  }

  lemma {:induction false} RotationTells(
      candidates: seq<Candidate>, i: nat, eligible: set<string>, calls: nat -> Call, deadline: Option<int>,
      policy: Policy, t0: Tracker, t: Tracker, now: int, attempts: seq<Attempt>, id: string)
    requires i <= |candidates| && Tells(candidates, calls, attempts, policy, t0, t, id)
    ensures var r := RotateFrom(candidates, i, eligible, calls, deadline, policy, t, now, attempts);
            Tells(candidates, calls, r.attempts, policy, t0, r.tracker, id)
    decreases |candidates| - i
  {
    if i < |candidates| && !Past(deadline, now) {
      if candidates[i].id !in eligible {
        RotationTells(candidates, i + 1, eligible, calls, deadline, policy, t0, t, now, attempts, id);
      } else {
        var tried, later := attempts + [Attempt(i, now)], now + calls(i).cost;
        var t' := AfterMark(t, candidates[i].id, MarkOf(calls, Attempt(i, now)), policy);
        OneMoreMark(candidates, calls, attempts, policy, t0, t, id, Attempt(i, now));
        RotateStep(candidates, i, eligible, calls, deadline, policy, t, now, attempts);
        if calls(i).failure.Some? && !Past(deadline, later) {
          RotationTells(candidates, i + 1, eligible, calls, deadline, policy, t0, t', later, tried, id);
        }
      }
    }
  }

  /** One call of a rotation: it ends there, or goes on with what the call has taught. */
  lemma RotateStep(
      candidates: seq<Candidate>, i: nat, eligible: set<string>, calls: nat -> Call, deadline: Option<int>,
      policy: Policy, t: Tracker, now: int, attempts: seq<Attempt>)
    requires i < |candidates| && !Past(deadline, now) && candidates[i].id in eligible
    ensures var r := RotateFrom(candidates, i, eligible, calls, deadline, policy, t, now, attempts);
            var tried, later := attempts + [Attempt(i, now)], now + calls(i).cost;
            var t' := AfterMark(t, candidates[i].id, MarkOf(calls, Attempt(i, now)), policy);
            if calls(i).failure.Some? && !Past(deadline, later)
            then r == RotateFrom(candidates, i + 1, eligible, calls, deadline, policy, t', later, tried)
            else r.attempts == tried && r.tracker == t' && r.now == later
  {
  }

  lemma {:induction false} CallsFollow(
      candidates: seq<Candidate>, i: nat, eligible: set<string>, calls: nat -> Call, deadline: Option<int>,
      policy: Policy, t: Tracker, start: int, now: int, attempts: seq<Attempt>)
    requires i <= |candidates| && OneAfterAnother(calls, attempts, start, now)
    ensures var r := RotateFrom(candidates, i, eligible, calls, deadline, policy, t, now, attempts);
            OneAfterAnother(calls, r.attempts, start, r.now)
    decreases |candidates| - i
  {
    if i < |candidates| && !Past(deadline, now) {
      if candidates[i].id !in eligible {
        CallsFollow(candidates, i + 1, eligible, calls, deadline, policy, t, start, now, attempts);
      } else {
        var tried, later := attempts + [Attempt(i, now)], now + calls(i).cost;
        assert tried[..|attempts|] == attempts;
        var t' := AfterMark(t, candidates[i].id, MarkOf(calls, Attempt(i, now)), policy);
        RotateStep(candidates, i, eligible, calls, deadline, policy, t, now, attempts);
        if calls(i).failure.Some? && !Past(deadline, later) {
          CallsFollow(candidates, i + 1, eligible, calls, deadline, policy, t', start, later, tried);
        }
      }
    }
  }

  /**
   Main result: a rotation's calls follow one another without a pause, and afterwards a
   candidate whose record was clean is available exactly when none of its own attempts
   took it out last or that time, counted from the end of the call, is over.
   */
  lemma AvailableAfterRotation(candidates: seq<Candidate>, calls: nat -> Call, deadline: Option<int>, policy: Policy,
      t: Tracker, start: int, id: string, now: int)
    requires Count(t, id) == 0 && id !in t.cooldowns
    ensures var r := Rotate(candidates, calls, deadline, policy, t, start);
            && InRange(candidates, r.attempts) && OneAfterAnother(calls, r.attempts, start, r.now)
            && var marks := MarksOf(candidates, calls, r.attempts, id);
               Available(r.tracker, id, now) <==>
               forall i: nat | LastOut(marks, i, policy) :: now >= marks[i].at + Wait(marks, i, policy).value
  {
    var r := Rotate(candidates, calls, deadline, policy, t, start);
    RotationTells(candidates, 0, Eligible(t, candidates, start), calls, deadline, policy, t, t, start, [], id);
    CallsFollow(candidates, 0, Eligible(t, candidates, start), calls, deadline, policy, t, start, start, []);
    var after := AfterMarks(t, id, MarksOf(candidates, calls, r.attempts, id), policy);
    assert SameFor(after, r.tracker, id);
    assert Available(after, id, now) <==> Available(r.tracker, id, now);
    AvailableIff(t, id, MarksOf(candidates, calls, r.attempts, id), policy, now);
  }

  // ---- a chain of providers ----

  datatype Provider = Provider(candidates: seq<Candidate>, calls: nat -> Call)

  datatype Chained = Chained(winner: Option<nat>, now: int, tracker: Tracker)

  /** evaluate_job and arbitrate_category: the next provider when a rotation fails, with the same deadline. */
  function ChainFrom(providers: seq<Provider>, i: nat, deadline: Option<int>, policy: Policy, t: Tracker,
      now: int): Chained
    requires i <= |providers|
    decreases |providers| - i
  {
    if i == |providers| then Chained(None, now, t)
    else
      var r := Rotate(providers[i].candidates, providers[i].calls, deadline, policy, t, now);
      if r.ending.Won? then Chained(Some(i), r.now, r.tracker)
      else ChainFrom(providers, i + 1, deadline, policy, r.tracker, r.now)
  }

  method RunChain(limits: RateLimits, providers: seq<Provider>, deadline: Option<int>, start: int)
      returns (winner: Option<nat>, now: int)
    modifies limits
    ensures Chained(winner, now, limits.State())
        == ChainFrom(providers, 0, deadline, limits.policy, old(limits.State()), start)
  {
    now := start;
    var i := 0;
    while i < |providers|
      invariant i <= |providers|
      invariant ChainFrom(providers, i, deadline, limits.policy, limits.State(), now) ==
                ChainFrom(providers, 0, deadline, limits.policy, old(limits.State()), start)
    {
      var ending, later, _ := limits.RunWithRotation(providers[i].candidates, providers[i].calls, deadline, now);
      now := later;
      if ending.Won? {
        return Some(i), now;
      }
      i := i + 1;
    }
    return None, now;
  }

  /** However many providers there are, the chain ends no later than its start or one call past the deadline. */
  lemma {:induction false} ChainEndsInTime(providers: seq<Provider>, i: nat, deadline: int, bound: nat,
      policy: Policy, t: Tracker, now: int)
    requires i <= |providers| && forall p <- providers, k :: p.calls(k).cost <= bound
    ensures var c := ChainFrom(providers, i, Some(deadline), policy, t, now);
            now <= c.now && (c.now == now || c.now < deadline + bound)
    decreases |providers| - i
  {
    if i < |providers| {
      var p := providers[i];
      EndsInTime(p.candidates, 0, Eligible(t, p.candidates, now), p.calls, deadline, bound, policy, t, now, []);
      var r := Rotate(p.candidates, p.calls, Some(deadline), policy, t, now);
      if !r.ending.Won? {
        ChainEndsInTime(providers, i + 1, deadline, bound, policy, r.tracker, r.now);
      }
    }
  }

  /** Where each rotation of a chain began, and where the last one ended. */
  datatype Stage = Stage(tracker: Tracker, now: int)

  function StageRotation(p: Provider, deadline: Option<int>, policy: Policy, s: Stage): Rotation {
    Rotate(p.candidates, p.calls, deadline, policy, s.tracker, s.now)
  }

  /** Stage k + 1 is what provider i + k makes of stage k; it wins exactly if it is the last and there is a winner. */
  ghost predicate StageStep(providers: seq<Provider>, i: nat, deadline: Option<int>, policy: Policy,
      stages: seq<Stage>, winner: Option<nat>, k: nat)
  {
    && k + 1 < |stages| && i + k < |providers|
    && var r := StageRotation(providers[i + k], deadline, policy, stages[k]);
       && stages[k + 1] == Stage(r.tracker, r.now)
       && (r.ending.Won? <==> k + 2 == |stages| && winner.Some?)
  }

  ghost predicate StagesOf(providers: seq<Provider>, i: nat, deadline: Option<int>, policy: Policy, stages: seq<Stage>,
      winner: Option<nat>)
  {
    && |stages| > 0
    && (forall k: nat | k + 1 < |stages| :: StageStep(providers, i, deadline, policy, stages, winner, k))
    && (if winner.Some? then |stages| > 1 && winner.value == i + |stages| - 2 else i + |stages| - 1 == |providers|)
  }

  lemma StageInFront(providers: seq<Provider>, i: nat, deadline: Option<int>, policy: Policy, s: Stage,
      rest: seq<Stage>, winner: Option<nat>)
    requires i < |providers| && StagesOf(providers, i + 1, deadline, policy, rest, winner)
    requires var r := StageRotation(providers[i], deadline, policy, s);
             !r.ending.Won? && rest[0] == Stage(r.tracker, r.now)
    ensures StagesOf(providers, i, deadline, policy, [s] + rest, winner)
  {
    var stages := [s] + rest;
    forall k: nat | k + 1 < |stages| ensures StageStep(providers, i, deadline, policy, stages, winner, k) {
      if k > 0 {
        assert StageStep(providers, i + 1, deadline, policy, rest, winner, k - 1);
        assert providers[i + 1 + (k - 1)] == providers[i + k];
      }
    }
  }

  /** Providers are tried in order, each with the clock and the table the last one left, up to the first that wins. */
  lemma {:induction false} ChainMeans(providers: seq<Provider>, i: nat, deadline: Option<int>, policy: Policy,
      t: Tracker, now: int) returns (stages: seq<Stage>)
    requires i <= |providers|
    ensures var c := ChainFrom(providers, i, deadline, policy, t, now);
            && StagesOf(providers, i, deadline, policy, stages, c.winner)
            && stages[0] == Stage(t, now) && stages[|stages| - 1] == Stage(c.tracker, c.now)
    decreases |providers| - i
  {
    if i == |providers| {
      stages := [Stage(t, now)];
    } else {
      var r := StageRotation(providers[i], deadline, policy, Stage(t, now));
      if r.ending.Won? {
        stages := [Stage(t, now), Stage(r.tracker, r.now)];
      } else {
        var rest := ChainMeans(providers, i + 1, deadline, policy, r.tracker, r.now);
        StageInFront(providers, i, deadline, policy, Stage(t, now), rest,
            ChainFrom(providers, i, deadline, policy, t, now).winner);
        stages := [Stage(t, now)] + rest;
      }
    }
  }
}
