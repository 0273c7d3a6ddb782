/**
 The sequential code of one channel: the recovery pass, what the retry watcher
 does when a pass ends, and its backoff. Each pass is shown to be a run of the
 channel protocol.
 */
module ChannelRuntime {
  import opened Options
  import opened ChannelProtocol
  import opened ChannelSafety

  /** What happens to one message of the batch. */
  datatype Call = Accepted | Refused | WriteRaised

  datatype PassResult = PassResult(watermark: int, processed: set<int>, failed: bool)

  /** The pass over batch[i..], when message k of the batch meets calls(k). */
  function PassFrom(batch: seq<int>, i: nat, calls: nat -> Call, watermark: int, processed: set<int>): PassResult
    requires i <= |batch|
    decreases |batch| - i
  {
    if i == |batch| then PassResult(watermark, processed, false)
    else match calls(i)
      case Accepted => PassFrom(batch, i + 1, calls, batch[i], processed + {batch[i]})
      case Refused => PassResult(watermark, processed, true)
      case WriteRaised => PassResult(batch[i], processed + {batch[i]}, true)
  }

  function PassVerdict(r: PassResult, fetched: nat, max: nat): Verdict {
    if r.failed then Failed else if fetched >= max then Capped else Complete
  }

  /** The watermark moves over the accepted messages up to the first failure, and over nothing else. */
  lemma {:induction false} PassStopsAtFirstFailure(batch: seq<int>, i: nat, calls: nat -> Call, watermark: int,
      processed: set<int>)
    returns (k: nat)
    requires i <= |batch|
    ensures i <= k <= |batch| && forall j | i <= j < k :: calls(j) != Refused
    ensures forall j | i <= j < k - 1 :: calls(j) == Accepted
    ensures var r := PassFrom(batch, i, calls, watermark, processed);
            && r.watermark == (if k == i then watermark else batch[k - 1])
            && r.processed == processed + (set j | i <= j < k :: batch[j])
            && (r.failed <==> (k < |batch| && calls(k) == Refused) || (i < k && calls(k - 1) == WriteRaised))
            && (!r.failed ==> k == |batch|)
    decreases |batch| - i
  {
    if i < |batch| && calls(i) == Accepted {
      k := PassStopsAtFirstFailure(batch, i + 1, calls, batch[i], processed + {batch[i]});
      assert (set j | i <= j < k :: batch[j]) == {batch[i]} + (set j | i + 1 <= j < k :: batch[j]);
    } else {
      k := if i < |batch| && calls(i) == WriteRaised then i + 1 else i;
      assert (set j | i <= j < k :: batch[j]) == if k == i then {} else {batch[i]};
    }
  }

  /** A run of one pass: nothing but the walk, the watermark and the processed set changes, and the connection holds. */
  ghost predicate PassRun(max: nat, s: State, states: seq<State>, es: seq<Event>) {
    && Path(max, states, es) && WellBehaved(es) && (forall e <- es :: !ConnectionLost(e)) && states[0] == s
    && OnlyPass(s, states[|es|])
  }

  ghost predicate OnlyPass(s: State, t: State) {
    && HasPass(s) && HasPass(t) && t.holder == WithPass(s, PassOf(t)).holder
    && t == s.(holder := t.holder, watermark := t.watermark, saved := t.saved, processed := t.processed,
        clock := t.clock)
  }

  lemma PassEvent(max: nat, s: State, e: Event, t: State)
    requires Apply(max, s, e) == Some(t) && OnlyPass(s, t) && WellBehaved([e]) && !ConnectionLost(e)
    ensures PassRun(max, s, [s, t], [e])
  {
  }

  lemma PassRunsJoin(max: nat, s: State, p: seq<State>, es: seq<Event>, q: seq<State>, fs: seq<Event>)
    requires PassRun(max, s, p, es) && PassRun(max, p[|es|], q, fs)
    ensures PassRun(max, s, p + q[1..], es + fs) && (p + q[1..])[|es| + |fs|] == q[|fs|]
  {
    JoinPaths(max, p, es, q, fs);
    forall e | e in es + fs ensures !ConnectionLost(e) && WellBehaved([e]) {
      assert e in es || e in fs;
    }
    assert forall e <- es + fs :: e in es || e in fs;
  }

  lemma Confirms(max: nat, s: State)
    requires HasPass(s) && PassOf(s).Walking? && !PassOf(s).confirmed && PassOf(s).next < |PassOf(s).batch|
    ensures var Walking(batch, i, _) := PassOf(s);
            Apply(max, s, Confirm) ==
            Some(WithPass(s, Walking(batch, i, true)).(processed := s.processed + {batch[i]}, clock := s.clock + 1))
  {
  }

  lemma Advances(max: nat, s: State)
    requires HasPass(s) && PassOf(s).Walking? && PassOf(s).confirmed && PassOf(s).next < |PassOf(s).batch|
    ensures var Walking(batch, i, _) := PassOf(s);
            && Apply(max, s, Advance) ==
               Some(WithPass(s, Walking(batch, i + 1, false))
                    .(watermark := batch[i], saved := batch[i], clock := s.clock + 1))
            && Apply(max, s, AdvanceRaised(false)) ==
               Some(WithPass(s, Finished(Failed)).(watermark := batch[i], clock := s.clock + 1))
  {
  }

  /** One accepted message: processed, then the watermark written, or its write raising. */
  lemma AcceptOne(max: nat, s: State, raised: bool) returns (states: seq<State>, es: seq<Event>)
    requires HasPass(s) && PassOf(s).Walking? && !PassOf(s).confirmed && PassOf(s).next < |PassOf(s).batch|
    ensures PassRun(max, s, states, es)
    ensures var Walking(batch, i, _) := PassOf(s);
            var end := states[|es|];
            && PassOf(end) == (if raised then Finished(Failed) else Walking(batch, i + 1, false))
            && end.processed == s.processed + {batch[i]} && end.watermark == batch[i]
  {
    var Walking(batch, i, _) := PassOf(s);
    var s1 := WithPass(s, Walking(batch, i, true)).(processed := s.processed + {batch[i]}, clock := s.clock + 1);
    Confirms(max, s);
    PassEvent(max, s, Confirm, s1);
    Advances(max, s1);
    var e := if raised then AdvanceRaised(false) else Advance;
    var s2 := Apply(max, s1, e).value;
    PassEvent(max, s1, e, s2);
    PassRunsJoin(max, s, [s, s1], [Confirm], [s1, s2], [e]);
    states, es := [s, s1] + [s1, s2][1..], [Confirm] + [e];
  }

  /** A pass of this code is a run of the protocol from the walk it is about to make. */
  lemma {:induction false} PassIsARun(max: nat, s: State, calls: nat -> Call)
    returns (states: seq<State>, es: seq<Event>)
    requires HasPass(s) && PassOf(s).Walking? && !PassOf(s).confirmed && PassOf(s).next <= |PassOf(s).batch|
    ensures PassRun(max, s, states, es)
    ensures var batch := PassOf(s).batch;
            var r := PassFrom(batch, PassOf(s).next, calls, s.watermark, s.processed);
            var end := states[|es|];
            && PassOf(end) == Finished(PassVerdict(r, |batch|, max))
            && end.watermark == r.watermark && end.processed == r.processed
    decreases |PassOf(s).batch| - PassOf(s).next
  {
    var Walking(batch, i, _) := PassOf(s);
    if i == |batch| || calls(i) == Refused {
      states, es := PassEnds(max, s, i < |batch|);
    } else {
      states, es := AcceptOne(max, s, calls(i) == WriteRaised);
      if calls(i) == Accepted {
        var rest, fs := PassIsARun(max, states[|es|], calls);
        PassRunsJoin(max, s, states, es, rest, fs);
        states, es := states + rest[1..], es + fs;
      }
    }
  }

  lemma PassEnds(max: nat, s: State, refused: bool) returns (states: seq<State>, es: seq<Event>)
    requires HasPass(s) && PassOf(s).Walking? && !PassOf(s).confirmed
    requires if refused then PassOf(s).next < |PassOf(s).batch| else PassOf(s).next == |PassOf(s).batch|
    ensures PassRun(max, s, states, es)
    ensures var verdict := if refused then Failed else if |PassOf(s).batch| >= max then Capped else Complete;
            states[|es|] == WithPass(s, Finished(verdict)).(clock := s.clock + 1)
  {
    var e := if refused then Refuse else Conclude;
    var t := Apply(max, s, e).value;
    PassEvent(max, s, e, t);
    states, es := [s, t], [e];
  }

  // ---- backoff ----

  /** The watcher's next delay after a pass with the given verdict. */
  function NextDelay(verdict: Verdict, delay: nat, base: nat, cap: nat): nat {
    if verdict == Failed then (if delay * 2 < cap then delay * 2 else cap) else base
  }

  function DelayAfter(verdicts: seq<Verdict>, base: nat, cap: nat): nat {
    if verdicts == [] then base
    else NextDelay(verdicts[|verdicts| - 1], DelayAfter(verdicts[..|verdicts| - 1], base, cap), base, cap)
  }

  function Doubled(base: nat, k: nat): nat { if k == 0 then base else 2 * Doubled(base, k - 1) }

  /** How many of the last passes failed in a row. */
  function TrailingFailures(verdicts: seq<Verdict>): nat {
    if verdicts == [] || verdicts[|verdicts| - 1] != Failed then 0
    else 1 + TrailingFailures(verdicts[..|verdicts| - 1])
  }

  /** After any passes the delay is the base doubled k times, or the cap, for the k failures in a row at the end. */
  lemma {:induction false} BackoffClosedForm(verdicts: seq<Verdict>, base: nat, cap: nat)
    requires 0 < base <= cap
    ensures var full := Doubled(base, TrailingFailures(verdicts));
            DelayAfter(verdicts, base, cap) == if full < cap then full else cap
    ensures base <= DelayAfter(verdicts, base, cap) <= cap
  {
    if verdicts != [] {
      var before := verdicts[..|verdicts| - 1];
      BackoffClosedForm(before, base, cap);
    }
  }

  // ---- draining a backlog ----

  lemma {:induction false} NewerIsSuffix(history: seq<int>, watermark: int, k: nat)
    requires k <= |history|
    requires forall i | 0 <= i < |history| :: history[i] > watermark <==> k <= i
    ensures Newer(history, watermark) == history[k..]
  {
    if history != [] {
      NewerIsSuffix(history[1..], watermark, if k == 0 then 0 else k - 1);
    }
  }

  lemma {:induction false} FirstNewer(history: seq<int>, watermark: int) returns (k: nat)
    requires Ascending(history)
    ensures k <= |history|
    ensures forall i | 0 <= i < |history| :: history[i] > watermark <==> k <= i
  {
    k := |history|;
    while k > 0 && history[k - 1] > watermark
      invariant k <= |history|
      invariant forall i | k <= i < |history| :: history[i] > watermark
    {
      k := k - 1;
    }
  }

  /** After a clean batch, what is left to fetch is the rest of what was left before. */
  lemma {:induction false} NewerAfter(history: seq<int>, watermark: int, n: nat)
    requires Ascending(history) && 0 < n <= |Newer(history, watermark)|
    ensures var newer := Newer(history, watermark);
            Newer(history, newer[n - 1]) == newer[n..]
  {
    var k := FirstNewer(history, watermark);
    NewerIsSuffix(history, watermark, k);
    AscendingAt(history, k + n - 1);
    NewerIsSuffix(history, history[k + n - 1], k + n);
    assert history[k..][n..] == history[k + n..];
  }

  lemma AscendingAt(history: seq<int>, m: nat)
    requires Ascending(history) && m < |history|
    ensures forall i | 0 <= i < |history| :: history[i] > history[m] <==> m + 1 <= i
  {
  }

  lemma {:induction false} CleanPass(batch: seq<int>, i: nat, calls: nat -> Call, watermark: int, processed: set<int>)
    requires i <= |batch| && forall k :: calls(k) == Accepted
    ensures PassFrom(batch, i, calls, watermark, processed) ==
            PassResult(if i == |batch| then watermark else batch[|batch| - 1],
                       processed + (set k | i <= k < |batch| :: batch[k]), false)
    decreases |batch| - i
  {
    if i < |batch| {
      CleanPass(batch, i + 1, calls, batch[i], processed + {batch[i]});
      assert (set k | i <= k < |batch| :: batch[k]) == {batch[i]} + (set k | i + 1 <= k < |batch| :: batch[k]);
    }
  }

  /** The volatile control of one channel and its two collaborators' records. */
  class Channel {
    var watermark: int
    var processed: set<int>
    var blocked: bool
    var generation: nat
    var wake: bool
    var delay: nat
    const base: nat
    const cap: nat
    const max: nat

    constructor (watermark: int, base: nat, cap: nat, max: nat)
      ensures this.watermark == watermark && processed == {} && blocked && generation == 0 && !wake
      ensures this.base == base && this.cap == cap && this.max == max && delay == base
    {
      this.watermark, this.processed, this.blocked := watermark, {}, true;
      this.generation, this.wake := 0, false;
      this.base, this.cap, this.max, this.delay := base, cap, max, base;
    }

    /** The fields as they stand in a protocol state. */
    ghost predicate Agrees(s: State)
      reads this
    {
      && s.watermark == watermark && s.processed == processed
      && s.blocked == blocked && s.generation == generation && s.wake == wake
    }

    method RaiseLiveBarrier(ghost s: State)
      requires Agrees(s)
      modifies this`blocked, this`generation, this`wake
      ensures Agrees(RaiseBarrier(s))
    {
      blocked := true;
      generation := generation + 1;
      wake := true;
    }

    /** _recover_channel: one bounded pass over what the channel holds. */
    method RecoverChannel(history: seq<int>, calls: nat -> Call, fetchRaises: bool) returns (verdict: Verdict)
      modifies this`watermark, this`processed
      ensures fetchRaises ==> verdict == Failed && watermark == old(watermark) && processed == old(processed)
      ensures !fetchRaises && old(watermark) == 0 ==>
                verdict == Complete && processed == old(processed)
                && watermark == if history == [] then 0 else history[|history| - 1]
      ensures !fetchRaises && old(watermark) != 0 ==>
                var batch := Batch(history, old(watermark), max);
                var r := PassFrom(batch, 0, calls, old(watermark), old(processed));
                verdict == PassVerdict(r, |batch|, max) && watermark == r.watermark && processed == r.processed
    {
      if fetchRaises {
        return Failed;
      }
      if watermark == 0 {
        if history != [] {
          watermark := history[|history| - 1];
        }
        return Complete;
      }
      var messages := Batch(history, watermark, max);
      ghost var r := PassFrom(messages, 0, calls, watermark, processed);
      var i := 0;
      while i < |messages|
        invariant i <= |messages|
        invariant PassFrom(messages, i, calls, watermark, processed) == r
      {
        match calls(i) {
          case Refused =>
            return Failed;
          case WriteRaised =>
            processed := processed + {messages[i]};
            watermark := messages[i];
            return Failed;
          case Accepted =>
            processed := processed + {messages[i]};
            watermark := messages[i];
        }
        i := i + 1;
      }
      if |messages| >= max {
        return Capped;
      }
      return Complete;
    }

    /** What the watcher does between releasing the lock and its next await. */
    method AfterPass(verdict: Verdict, generationAtStart: nat, ghost s: State)
      requires Agrees(s) && s.holder.Retry?
      requires s.holder.walk == Finished(verdict) && s.holder.generationAtStart == generationAtStart
      modifies this`blocked, this`delay
      ensures Agrees(EndPassEffect(s))
      ensures delay == NextDelay(verdict, old(delay), base, cap)
    {
      if verdict == Complete {
        if generation == generationAtStart {
          blocked := false;
        }
        delay := base;
      } else if verdict == Capped {
        delay := base;
      } else {
        delay := if delay * 2 < cap then delay * 2 else cap;
      }
    }

    /** A pass of the drain: every message of the batch is accepted. */
    method CleanRecovery(history: seq<int>, ghost newer: seq<int>, ghost drained: nat, ghost before: set<int>)
      returns (verdict: Verdict, ghost fetched: nat)
      requires Ascending(history) && max > 0
      requires Draining(history, newer, drained, watermark, processed, before)
      modifies this`watermark, this`processed
      ensures Draining(history, newer, drained + fetched, watermark, processed, before)
      ensures verdict == if fetched < max then Complete else Capped
      ensures fetched < max ==> drained + fetched == |newer| && CappedPasses(|newer| - drained, max) == 0
      ensures fetched >= max ==>
                fetched == max && CappedPasses(|newer| - drained, max)
                    == 1 + CappedPasses(|newer| - (drained + fetched), max)
    {
      var accept := (k: nat) => Accepted;
      ghost var r;
      fetched, r := CleanFetch(history, watermark, max, newer, drained, accept, processed, before);
      CountPass(|newer| - drained, fetched, max);
      verdict := RecoverChannel(history, accept, false);
    }

    /**
     The watcher's loop when nothing fails and nothing arrives: a backlog of B
     messages takes exactly B / max capped passes, rounded down, before the complete one.
     */
    method Drain(history: seq<int>) returns (cappedPasses: nat)
      requires Ascending(history) && (forall id <- history :: id > 0)
      requires watermark > 0 && max > 0 && blocked
      modifies this`watermark, this`processed, this`blocked
      ensures !blocked
      ensures var backlog := |Newer(history, old(watermark))|;
              cappedPasses * max <= backlog < cappedPasses * max + max
      ensures Newer(history, watermark) == []
      ensures processed == old(processed) + (set id | id in Newer(history, old(watermark)))
    {
      cappedPasses := 0;
      ghost var newer := Newer(history, watermark);
      ghost var drained := 0;
      assert newer[0..] == newer;
      while blocked
        invariant Draining(history, newer, drained, watermark, processed, old(processed))
        invariant blocked ==> cappedPasses + CappedPasses(|newer| - drained, max) == CappedPasses(|newer|, max)
        invariant !blocked ==> drained == |newer| && cappedPasses == CappedPasses(|newer|, max)
        decreases blocked, |newer| - drained
      {
        ghost var fetched;
        var verdict;
        verdict, fetched := CleanRecovery(history, newer, drained, old(processed));
        drained := drained + fetched;
        if verdict == Complete {
          blocked := false;
        } else {
          cappedPasses := cappedPasses + 1;
        }
      }
      assert FirstOf(newer, |newer|) == (set id | id in newer);
      CappedPassesBound(|newer|, max);
    }
  }

  /** The first 'drained' messages of the backlog are processed and the others are still to be fetched. */
  ghost predicate Draining(history: seq<int>, newer: seq<int>, drained: int, watermark: int, processed: set<int>,
      before: set<int>) {
    && watermark > 0 && 0 <= drained <= |newer|
    && Newer(history, watermark) == newer[drained..]
    && processed == before + FirstOf(newer, drained)
  }

  /** Full batches in a backlog of n. */
  function CappedPasses(n: nat, max: nat): nat
    requires max > 0
  {
    if n < max then 0 else 1 + CappedPasses(n - max, max)
  }

  lemma {:induction false} CappedPassesBound(n: nat, max: nat)
    requires max > 0
    ensures CappedPasses(n, max) * max <= n < CappedPasses(n, max) * max + max
  {
    if n >= max {
      CappedPassesBound(n - max, max);
      var k := CappedPasses(n - max, max);
      assert (k + 1) * max == k * max + max;
    }
  }

  ghost function FirstOf(ids: seq<int>, n: nat): set<int>
    requires n <= |ids|
  {
    set k | 0 <= k < n :: ids[k]
  }

  /** One clean pass takes the next stretch of what was newer than the first watermark. */
  lemma CleanFetch(history: seq<int>, watermark: int, max: nat, newer: seq<int>, drained: nat,
                   accept: nat -> Call, processed: set<int>, before: set<int>)
    returns (fetched: nat, r: PassResult)
    requires Ascending(history) && 0 < max && (forall k :: accept(k) == Accepted)
    requires Draining(history, newer, drained, watermark, processed, before)
    ensures r == PassFrom(Batch(history, watermark, max), 0, accept, watermark, processed)
    ensures fetched == |Batch(history, watermark, max)| <= max
    ensures Draining(history, newer, drained + fetched, r.watermark, r.processed, before)
    ensures PassVerdict(r, fetched, max) == if fetched < max then Complete else Capped
    ensures fetched < max ==> drained + fetched == |newer|
  {
    var batch := Batch(history, watermark, max);
    fetched := |batch|;
    r := PassFrom(batch, 0, accept, watermark, processed);
    CleanPass(batch, 0, accept, watermark, processed);
    CleanFetchAdvances(history, watermark, max, newer, drained);
    FirstOfGrows(newer, drained, batch);
  }

  lemma CleanFetchAdvances(history: seq<int>, watermark: int, max: nat, newer: seq<int>, drained: nat)
    requires Ascending(history) && 0 < max && watermark > 0 && drained <= |newer|
    requires Newer(history, watermark) == newer[drained..]
    ensures var batch := Batch(history, watermark, max);
            && drained + |batch| <= |newer|
            && (forall k | 0 <= k < |batch| :: batch[k] == newer[drained + k])
            && (batch != [] ==>
                  batch[|batch| - 1] > watermark && Newer(history, batch[|batch| - 1]) == newer[drained + |batch|..])
  {
    var batch := Batch(history, watermark, max);
    if batch != [] {
      BatchCovers(history, watermark, max);
      NewerAfter(history, watermark, |batch|);
      assert batch[|batch| - 1] in batch;
    }
  }

  lemma CountPass(left: nat, fetched: nat, max: nat)
    requires 0 < max && fetched <= max && (fetched < max ==> fetched == left) && fetched <= left
    ensures CappedPasses(left, max) == if fetched < max then 0 else 1 + CappedPasses(left - fetched, max)
  {
  }

  lemma FirstOfGrows(newer: seq<int>, drained: nat, batch: seq<int>)
    requires drained + |batch| <= |newer|
    requires forall k | 0 <= k < |batch| :: batch[k] == newer[drained + k]
    ensures FirstOf(newer, drained + |batch|) == FirstOf(newer, drained) + (set k | 0 <= k < |batch| :: batch[k])
  {
    forall k | drained <= k < drained + |batch|
      ensures newer[k] in (set k | 0 <= k < |batch| :: batch[k])
    {
      assert batch[k - drained] == newer[k];
    }
  }
}
