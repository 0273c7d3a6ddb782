/** Poll-mode Telegram ingestion: bounded polls, in-order processing, contiguous confirmation. */
module PollSource {
  import opened Options
  import opened ChannelProtocol
  import opened ChannelSafety

  datatype Job = Job(channel: string, id: int)

  /** The durable watermarks and the batches the last poll handed out. */
  datatype SourceState = SourceState(watermarks: map<string, int>, inflight: map<string, seq<int>>)

  function WatermarkOf(st: SourceState, channel: string): int {
    if channel in st.watermarks then st.watermarks[channel] else 0
  }

  function InflightOf(st: SourceState, channel: string): seq<int> {
    if channel in st.inflight then st.inflight[channel] else []
  }

  /** mark_seen: only the head of the batch may move the watermark, and only forward. */
  function Mark(st: SourceState, job: Job): SourceState {
    var pending := InflightOf(st, job.channel);
    if pending == [] || pending[0] != job.id || job.id <= WatermarkOf(st, job.channel) then st
    else SourceState(st.watermarks[job.channel := job.id], st.inflight[job.channel := pending[1..]])
  }

  /** The worker's loop over one poll's jobs: mark a job only when it was processed. */
  function Handle(st: SourceState, jobs: seq<Job>, ok: Job -> bool): SourceState
    decreases jobs
  {
    if jobs == [] then st
    else Handle(if ok(jobs[0]) then Mark(st, jobs[0]) else st, jobs[1..], ok)
  }

  function JobsOf(channel: string, ids: seq<int>): seq<Job> {
    seq(|ids|, i requires 0 <= i < |ids| => Job(channel, ids[i]))
  }

  /** What each channel holds when it is asked; None if its name cannot be resolved in this cycle. */
  type Server = string -> Option<seq<int>>

  function PollBatch(st: SourceState, channel: string, server: Server, limit: nat): seq<int> {
    if server(channel).None? then [] else Batch(server(channel).value, WatermarkOf(st, channel), limit)
  }

  /** poll over channels[i..]: a channel that cannot be resolved is passed over, its last batch untouched. */
  function PollFrom(st: SourceState, channels: seq<string>, i: nat, server: Server, limit: nat)
    : (r: (SourceState, seq<Job>))
    requires i <= |channels|
    ensures r.0.watermarks == st.watermarks
    decreases |channels| - i
  {
    if i == |channels| then (st, [])
    else if server(channels[i]).None? then PollFrom(st, channels, i + 1, server, limit)
    else
      var c := channels[i];
      var batch := PollBatch(st, c, server, limit);
      var (st', jobs) := PollFrom(st.(inflight := st.inflight[c := batch]), channels, i + 1, server, limit);
      (st', JobsOf(c, batch) + jobs)
  }

  // ---- one channel's share of a cycle ----

  /** How many messages at the front of a batch were processed. */
  function ConfirmedPrefix(channel: string, ids: seq<int>, ok: Job -> bool): (k: nat)
    ensures k <= |ids|
  {
    if ids == [] || !ok(Job(channel, ids[0])) then 0 else 1 + ConfirmedPrefix(channel, ids[1..], ok)
  }

  lemma {:induction false} ConfirmedPrefixIsLongest(channel: string, ids: seq<int>, ok: Job -> bool)
    ensures var k := ConfirmedPrefix(channel, ids, ok);
            && (forall i | 0 <= i < k :: ok(Job(channel, ids[i])))
            && (k < |ids| ==> !ok(Job(channel, ids[k])))
  {
    if ids != [] && ok(Job(channel, ids[0])) {
      ConfirmedPrefixIsLongest(channel, ids[1..], ok);
    }
  }

  function IdsOf(jobs: seq<Job>, channel: string): seq<int> {
    if jobs == [] then []
    else (if jobs[0].channel == channel then [jobs[0].id] else []) + IdsOf(jobs[1..], channel)
  }

  lemma {:induction false} IdsOfSplits(a: seq<Job>, b: seq<Job>, channel: string)
    ensures IdsOf(a + b, channel) == IdsOf(a, channel) + IdsOf(b, channel)
  {
    if a == [] {
      assert a + b == b;
    } else {
      assert (a + b)[0] == a[0] && (a + b)[1..] == a[1..] + b;
      IdsOfSplits(a[1..], b, channel);
      var first := if a[0].channel == channel then [a[0].id] else [];
      assert IdsOf(a + b, channel) == first + IdsOf(a[1..] + b, channel);
      assert first + (IdsOf(a[1..], channel) + IdsOf(b, channel)) == first + IdsOf(a[1..], channel) + IdsOf(b, channel);
    }
  }

  lemma {:induction false} IdsOfJobs(c: string, ids: seq<int>, channel: string)
    ensures IdsOf(JobsOf(c, ids), channel) == if c == channel then ids else []
  {
    if ids != [] {
      assert JobsOf(c, ids)[1..] == JobsOf(c, ids[1..]);
      IdsOfJobs(c, ids[1..], channel);
    }
  }

  /** What one channel sees of the worker's loop: its watermark after its own jobs. */
  function OwnJobs(channel: string, watermark: int, pending: seq<int>, ids: seq<int>, ok: Job -> bool): int
    decreases ids
  {
    if ids == [] then watermark
    else if ok(Job(channel, ids[0])) && pending != [] && pending[0] == ids[0] && ids[0] > watermark
    then OwnJobs(channel, ids[0], pending[1..], ids[1..], ok)
    else OwnJobs(channel, watermark, pending, ids[1..], ok)
  }

  lemma {:induction false} ChannelsAreIndependent(st: SourceState, jobs: seq<Job>, ok: Job -> bool, channel: string)
    ensures WatermarkOf(Handle(st, jobs, ok), channel) ==
            OwnJobs(channel, WatermarkOf(st, channel), InflightOf(st, channel), IdsOf(jobs, channel), ok)
    decreases jobs
  {
    if jobs != [] {
      var st' := if ok(jobs[0]) then Mark(st, jobs[0]) else st;
      ChannelsAreIndependent(st', jobs[1..], ok, channel);
      if jobs[0].channel == channel {
        assert jobs[0] == Job(channel, jobs[0].id);
        assert IdsOf(jobs, channel)[1..] == IdsOf(jobs[1..], channel);
      } else {
        assert IdsOf(jobs, channel) == IdsOf(jobs[1..], channel);
      }
    }
  }

  /** After a failure nothing later in the batch is confirmed. */
  lemma {:induction false} NothingAfterGap(channel: string, watermark: int, pending: seq<int>, ids: seq<int>,
      ok: Job -> bool)
    requires pending != [] && pending[0] !in ids
    ensures OwnJobs(channel, watermark, pending, ids, ok) == watermark
    decreases ids
  {
    if ids != [] {
      NothingAfterGap(channel, watermark, pending, ids[1..], ok);
    }
  }

  lemma {:induction false} OwnJobsMoveOverPrefix(channel: string, watermark: int, ids: seq<int>, ok: Job -> bool)
    requires Ascending(ids) && forall id <- ids :: id > watermark
    ensures var k := ConfirmedPrefix(channel, ids, ok);
            OwnJobs(channel, watermark, ids, ids, ok) == if k == 0 then watermark else ids[k - 1]
    decreases ids
  {
    if ids != [] {
      HeadOfAscending(ids, ids[1..]);
      if ok(Job(channel, ids[0])) {
        OwnJobsMoveOverPrefix(channel, ids[0], ids[1..], ok);
      } else {
        NothingAfterGap(channel, watermark, ids, ids[1..], ok);
      }
    }
  }

  lemma HeadOfAscending(ids: seq<int>, rest: seq<int>)
    requires ids != [] && Ascending(ids) && rest == ids[1..]
    ensures ids[0] in ids && ids[0] !in rest
    ensures Ascending(rest) && forall id <- rest :: id > ids[0]
  {
  }

  ghost predicate Distinct(channels: seq<string>) {
    forall i, j :: 0 <= i < j < |channels| ==> channels[i] != channels[j]
  }

  lemma {:induction false} PollHandsOutBatches(st: SourceState, channels: seq<string>, i: nat,
                                               server: Server, limit: nat, channel: string)
    requires Distinct(channels) && i <= |channels|
    ensures var (st', jobs) := PollFrom(st, channels, i, server, limit);
            if channel in channels[i..] && server(channel).Some?
            then InflightOf(st', channel) == IdsOf(jobs, channel) == PollBatch(st, channel, server, limit)
            else InflightOf(st', channel) == InflightOf(st, channel) && IdsOf(jobs, channel) == []
    decreases |channels| - i
  {
    if i < |channels| {
      OnceAmong(channels, i, channel);
      var c := channels[i];
      if server(c).None? {
        PollHandsOutBatches(st, channels, i + 1, server, limit, channel);
      } else {
        var batch := PollBatch(st, c, server, limit);
        var st1 := st.(inflight := st.inflight[c := batch]);
        var (_, jobs) := PollFrom(st1, channels, i + 1, server, limit);
        PollHandsOutBatches(st1, channels, i + 1, server, limit, channel);
        IdsOfSplits(JobsOf(c, batch), jobs, channel);
        IdsOfJobs(c, batch, channel);
      }
    }
  }

  lemma OnceAmong(channels: seq<string>, i: nat, channel: string)
    requires Distinct(channels) && i < |channels|
    ensures channel in channels[i..] <==> channel == channels[i] || channel in channels[i + 1..]
    ensures channels[i] !in channels[i + 1..]
  {
    assert channels[i..] == [channels[i]] + channels[i + 1..];
  }

  /** The watermark of a channel after a cycle in which it was handed 'batch'. */
  function AfterBatch(channel: string, watermark: int, batch: seq<int>, ok: Job -> bool): int {
    var k := ConfirmedPrefix(channel, batch, ok);
    if k == 0 then watermark else batch[k - 1]
  }

  function Cycle(st: SourceState, channels: seq<string>, server: Server, limit: nat, ok: Job -> bool): SourceState {
    var (st', jobs) := PollFrom(st, channels, 0, server, limit);
    Handle(st', jobs, ok)
  }

  /** After each cycle a channel stands at the end of the longest processed prefix of its batch. */
  lemma CycleIsContiguous(st: SourceState, channels: seq<string>, server: Server, limit: nat,
                          ok: Job -> bool, channel: string)
    requires Distinct(channels) && channel in channels
    requires server(channel).Some? ==> Ascending(server(channel).value)
    ensures WatermarkOf(Cycle(st, channels, server, limit, ok), channel) ==
            AfterBatch(channel, WatermarkOf(st, channel), PollBatch(st, channel, server, limit), ok)
  {
    var (st', jobs) := PollFrom(st, channels, 0, server, limit);
    assert channels[0..] == channels;
    PollHandsOutBatches(st, channels, 0, server, limit, channel);
    ChannelsAreIndependent(st', jobs, ok, channel);
    if server(channel).Some? {
      BatchCovers(server(channel).value, WatermarkOf(st, channel), limit);
      OwnJobsMoveOverPrefix(channel, WatermarkOf(st, channel), IdsOf(jobs, channel), ok);
    }
  }

  // ---- any number of cycles ----

  /** What the channels hold in one cycle, and which jobs succeed in it. */
  datatype Round = Round(server: Server, ok: Job -> bool)

  function Cycles(st: SourceState, channels: seq<string>, limit: nat, rounds: seq<Round>): SourceState {
    if rounds == [] then st
    else
      var n := |rounds| - 1;
      Cycle(Cycles(st, channels, limit, rounds[..n]), channels, rounds[n].server, limit, rounds[n].ok)
  }

  /** The channel's messages only grow, newest last. */
  ghost predicate Growing(channel: string, rounds: seq<Round>) {
    && (forall i | 0 <= i < |rounds| && rounds[i].server(channel).Some? :: Ascending(rounds[i].server(channel).value))
    && forall i, j | 0 <= i < j < |rounds| && rounds[i].server(channel).Some? && rounds[j].server(channel).Some? ::
         rounds[i].server(channel).value <= rounds[j].server(channel).value
  }

  /** The batch the channel is handed in cycle i. */
  function HandedOut(st: SourceState, channels: seq<string>, limit: nat, rounds: seq<Round>, i: nat, channel: string)
    : seq<int>
    requires i < |rounds|
  {
    PollBatch(Cycles(st, channels, limit, rounds[..i]), channel, rounds[i].server, limit)
  }

  /** In some cycle the message was handed out and its processing succeeded. */
  ghost predicate Processed(st: SourceState, channels: seq<string>, limit: nat, rounds: seq<Round>, job: Job) {
    exists i | 0 <= i < |rounds| ::
      job.id in HandedOut(st, channels, limit, rounds, i, job.channel) && rounds[i].ok(job)
  }

  /** The channel showed the message in some cycle. */
  ghost predicate Shown(channel: string, rounds: seq<Round>, id: int) {
    exists i | 0 <= i < |rounds| :: rounds[i].server(channel).Some? && id in rounds[i].server(channel).value
  }

  lemma AfterBatchSkipsNothing(channel: string, watermark: int, history: seq<int>, limit: nat, ok: Job -> bool)
    requires Ascending(history)
    ensures var batch := Batch(history, watermark, limit);
            var w := AfterBatch(channel, watermark, batch, ok);
            && watermark <= w && (w == watermark || w in history)
            && forall id <- history :: watermark < id <= w ==> id in batch && ok(Job(channel, id))
  {
    var batch := Batch(history, watermark, limit);
    BatchCovers(history, watermark, limit);
    ConfirmedPrefixIsLongest(channel, batch, ok);
    var k := ConfirmedPrefix(channel, batch, ok);
    if k > 0 {
      assert batch[k - 1] in batch;
      forall id <- history | watermark < id <= batch[k - 1]
        ensures id in batch && ok(Job(channel, id))
      {
        assert id in batch;
        var i :| 0 <= i < |batch| && batch[i] == id;
        assert i < k;
      }
    }
  }

  lemma ProcessedLater(st: SourceState, channels: seq<string>, limit: nat, rounds: seq<Round>, job: Job)
    requires rounds != [] && Processed(st, channels, limit, rounds[..|rounds| - 1], job)
    ensures Processed(st, channels, limit, rounds, job)
  {
    var before := rounds[..|rounds| - 1];
    var i :| 0 <= i < |before| && job.id in HandedOut(st, channels, limit, before, i, job.channel) && before[i].ok(job);
    assert before[..i] == rounds[..i] && rounds[i] == before[i];
    assert job.id in HandedOut(st, channels, limit, rounds, i, job.channel);
  }

  /** A message shown only now and at most as new as the watermark was shown before. */
  lemma ShownBefore(channel: string, rounds: seq<Round>, top: int, id: int)
    requires rounds != [] && Growing(channel, rounds) && id <= top
    requires Shown(channel, rounds[..|rounds| - 1], top) && Shown(channel, rounds, id)
    ensures Shown(channel, rounds[..|rounds| - 1], id)
  {
    var n := |rounds| - 1;
    var before := rounds[..n];
    var j :| 0 <= j < |before| && before[j].server(channel).Some? && top in before[j].server(channel).value;
    var i :| 0 <= i < |rounds| && rounds[i].server(channel).Some? && id in rounds[i].server(channel).value;
    assert before[j] == rounds[j];
    if i == n {
      OldIdsStay(rounds[j].server(channel).value, rounds[n].server(channel).value, top, id);
      assert id in before[j].server(channel).value;
    } else {
      assert before[i] == rounds[i];
    }
  }

  /**
   Over any number of cycles of the source a channel's watermark never decreases,
   and every message it passed had been handed out and processed in one of them.
   */
  lemma {:induction false} CyclesSkipNothing(st: SourceState, channels: seq<string>, limit: nat, rounds: seq<Round>,
      channel: string)
    requires Distinct(channels) && channel in channels && Growing(channel, rounds)
    ensures var w0, w := WatermarkOf(st, channel), WatermarkOf(Cycles(st, channels, limit, rounds), channel);
            && w0 <= w && (w == w0 || Shown(channel, rounds, w))
            && (rounds != [] ==> WatermarkOf(Cycles(st, channels, limit, rounds[..|rounds| - 1]), channel) <= w)
            && forall id | w0 < id <= w && Shown(channel, rounds, id) ::
                 Processed(st, channels, limit, rounds, Job(channel, id))
  {
    if rounds != [] {
      var n := |rounds| - 1;
      var before, last := rounds[..n], rounds[n];
      CyclesSkipNothing(st, channels, limit, before, channel);
      var st' := Cycles(st, channels, limit, before);
      CycleIsContiguous(st', channels, last.server, limit, last.ok, channel);
      LastCycle(st, channels, limit, rounds, channel);
      var w0, w1 := WatermarkOf(st, channel), WatermarkOf(st', channel);
      var w := WatermarkOf(Cycles(st, channels, limit, rounds), channel);
      assert w1 <= w && (w == w1 || Shown(channel, rounds, w));
      forall id | w0 < id <= w && Shown(channel, rounds, id)
        ensures Processed(st, channels, limit, rounds, Job(channel, id))
      {
        if id <= w1 {
          ShownBefore(channel, rounds, w1, id);
          ProcessedLater(st, channels, limit, rounds, Job(channel, id));
        }
      }
      if w == w1 && w1 != w0 {
        ShownStill(channel, rounds, w1);
      }
    }
  }

  lemma ShownStill(channel: string, rounds: seq<Round>, id: int)
    requires rounds != [] && Shown(channel, rounds[..|rounds| - 1], id)
    ensures Shown(channel, rounds, id)
  {
    var before := rounds[..|rounds| - 1];
    var i :| 0 <= i < |before| && before[i].server(channel).Some? && id in before[i].server(channel).value;
    assert rounds[i] == before[i];
  }

  /** What the last cycle adds. */
  lemma LastCycle(st: SourceState, channels: seq<string>, limit: nat, rounds: seq<Round>, channel: string)
    requires Distinct(channels) && channel in channels && Growing(channel, rounds) && rounds != []
    ensures var w1 := WatermarkOf(Cycles(st, channels, limit, rounds[..|rounds| - 1]), channel);
            var w := WatermarkOf(Cycles(st, channels, limit, rounds), channel);
            && w1 <= w && (w == w1 || Shown(channel, rounds, w))
            && forall id | w1 < id <= w && Shown(channel, rounds, id) ::
                 Processed(st, channels, limit, rounds, Job(channel, id))
  {
    var n := |rounds| - 1;
    var last := rounds[n];
    var st' := Cycles(st, channels, limit, rounds[..n]);
    var w1 := WatermarkOf(st', channel);
    CycleIsContiguous(st', channels, last.server, limit, last.ok, channel);
    if last.server(channel).Some? {
      var history := last.server(channel).value;
      AfterBatchSkipsNothing(channel, w1, history, limit, last.ok);
      var w := AfterBatch(channel, w1, Batch(history, w1, limit), last.ok);
      forall id | w1 < id <= w && Shown(channel, rounds, id)
        ensures Processed(st, channels, limit, rounds, Job(channel, id))
      {
        LatestShowsAll(channel, rounds, id);
        assert id in HandedOut(st, channels, limit, rounds, n, channel);
      }
    }
  }

  lemma LatestShowsAll(channel: string, rounds: seq<Round>, id: int)
    requires rounds != [] && Growing(channel, rounds) && Shown(channel, rounds, id)
    requires rounds[|rounds| - 1].server(channel).Some?
    ensures id in rounds[|rounds| - 1].server(channel).value
  {
    var n := |rounds| - 1;
    var i :| 0 <= i < |rounds| && rounds[i].server(channel).Some? && id in rounds[i].server(channel).value;
    if i < n {
      assert rounds[i].server(channel).value <= rounds[n].server(channel).value;
    }
  }

  lemma OldIdsStay(before: seq<int>, after: seq<int>, top: int, id: int)
    requires before <= after && Ascending(after) && top in before && id in after && id <= top
    ensures id in before
  {
    var i :| 0 <= i < |after| && after[i] == id;
    var j :| 0 <= j < |before| && before[j] == top;
    assert after[j] == top;
  }

  /** The source and its worker. */
  class TelegramSource {
    var watermarks: map<string, int>
    var inflight: map<string, seq<int>>
    const limit: nat

    constructor (watermarks: map<string, int>, limit: nat)
      ensures State() == SourceState(watermarks, map[]) && this.limit == limit
    {
      this.watermarks, this.inflight, this.limit := watermarks, map[], limit;
    }

    ghost function State(): SourceState
      reads this
    {
      SourceState(watermarks, inflight)
    }

    method LastMessageId(channel: string) returns (id: int)
      ensures id == WatermarkOf(State(), channel)
    {
      id := if channel in watermarks then watermarks[channel] else 0;
    }

    method Poll(channels: seq<string>, server: Server) returns (jobs: seq<Job>)
      modifies this`inflight
      ensures (State(), jobs) == PollFrom(old(State()), channels, 0, server, limit)
    {
      jobs := [];
      ghost var target := PollFrom(State(), channels, 0, server, limit);
      var i := 0;
      while i < |channels|
        invariant i <= |channels|
        invariant watermarks == old(watermarks)
        invariant PollFrom(State(), channels, i, server, limit).0 == target.0
        invariant jobs + PollFrom(State(), channels, i, server, limit).1 == target.1
      {
        var c := channels[i];
        ghost var st := State();
        if server(c).Some? {
          var watermark := LastMessageId(c);
          var fetched := Batch(server(c).value, watermark, limit);
          inflight := inflight[c := fetched];
          assert PollFrom(st, channels, i, server, limit) ==
                 (PollFrom(State(), channels, i + 1, server, limit).0,
                  JobsOf(c, fetched) + PollFrom(State(), channels, i + 1, server, limit).1);
          jobs := jobs + JobsOf(c, fetched);
        }
        i := i + 1;
      }
      assert jobs + [] == jobs;
    }

    method MarkSeen(job: Job)
      modifies this
      ensures State() == Mark(old(State()), job)
    {
      var pending := if job.channel in inflight then inflight[job.channel] else [];
      if pending == [] || pending[0] != job.id {
        return;
      }
      var current := LastMessageId(job.channel);
      if job.id <= current {
        return;
      }
      inflight := inflight[job.channel := pending[1..]];
      watermarks := watermarks[job.channel := job.id];
    }

    /** One turn of SourceWorker.run: a job that raises is left unmarked and the loop goes on. */
    method RunCycle(channels: seq<string>, server: Server, ok: Job -> bool)
      modifies this
      ensures State() == Cycle(old(State()), channels, server, limit, ok)
    {
      var jobs := Poll(channels, server);
      ghost var target := Handle(State(), jobs, ok);
      var i := 0;
      assert jobs[0..] == jobs;
      while i < |jobs|
        invariant i <= |jobs|
        invariant Handle(State(), jobs[i..], ok) == target
      {
        if ok(jobs[i]) {
          MarkSeen(jobs[i]);
        }
        i := i + 1;
      }
    }
  }
}
