/**
 One Telegram channel as a step machine: startup recovery, live handlers, the
 retry watcher, message arrivals and process restarts interleave. Each event is
 the code between two awaits (app/adapters/sources/telegram.py), so a run is any
 list of events. What a call outside the program does is part of the event.
 */
module ChannelProtocol {
  import opened Options

  datatype Verdict = Complete | Capped | Failed

  /** How far the recovery pass that holds the channel lock has come. */
  datatype Walk =
    | Fetching
    | Walking(batch: seq<int>, next: nat, confirmed: bool)
    | Finished(verdict: Verdict)

  datatype Holder =
    | Free
    | Startup(walk: Walk)
    | Retry(walk: Walk, generationAtStart: nat, startedAt: nat)
    | Live(id: int, confirmed: bool)

  datatype Watcher =
    | NotStarted
    | Look
    | Parked
    | Sleeping(generationAtStart: nat)
    | WantsLock(generationAtStart: nat)
    | HoldsLock
    | Dead

  datatype State = State(
    history: seq<int>,    // ids posted to the channel, oldest first
    watermark: int,       // what get_last_message_id answers
    saved: int,           // what it answers after a restart
    processed: set<int>,  // messages process_message has accepted
    connected: bool,      // the live handler is registered
    pending: seq<int>,    // dispatched handlers that have not got the lock, by arrival
    holder: Holder,
    blocked: bool,
    generation: nat,
    wake: bool,
    watcher: Watcher,
    clock: nat,           // events so far; 'failedAt' is the clock of the last live failure
    failedAt: nat
  )

  datatype Event =
    | Post(id: int)                     // a message appears in the channel
    | Connect                           // locks taken, barrier up, handler registered
    | Crash                             // process death
    | Disconnect                        // connection lost: handlers, locks and watcher go, the process stays
    | Flush                             // some other save writes the whole state file
    | Fetch | FetchRaised               // the pass reads its batch
    | Confirm | Refuse                  // process_message on the next message of the batch
    | Advance | AdvanceRaised(reached: bool)  // the watermark write after it
    | Conclude                          // the batch is exhausted
    | EndPass                           // lock released, barrier decided
    | AuditRaised                       // logging the pass's exception raised as well
    | LiveAcquire(index: nat)           // a pending handler gets the lock
    | LiveConfirm | LiveRefuse          // process_message on the live message
    | LiveLost                          // it raised and so did the error log: no barrier
    | LiveCommit | LiveCommitRaised(reached: bool)  // the watermark write after it
    | WatchStart | WatchLook | WatchUnpark | WatchElapse | WatchLock

  function Newer(history: seq<int>, watermark: int): seq<int> {
    if history == [] then []
    else (if history[0] > watermark then [history[0]] else []) + Newer(history[1..], watermark)
  }

  /** iter_messages(min_id=watermark, reverse=True, limit=max). */
  function Batch(history: seq<int>, watermark: int, max: nat): seq<int> {
    var newer := Newer(history, watermark);
    if |newer| <= max then newer else newer[..max]
  }

  predicate HasPass(s: State) { s.holder.Startup? || s.holder.Retry? }

  function PassOf(s: State): Walk
    requires HasPass(s)
  {
    s.holder.walk
  }

  function WithPass(s: State, walk: Walk): State
    requires HasPass(s)
  {
    s.(holder := s.holder.(walk := walk))
  }

  /** raise_live_barrier. */
  function RaiseBarrier(s: State): State {
    s.(blocked := true, generation := s.generation + 1, wake := true, failedAt := s.clock)
  }

  function FetchEffect(max: nat, s: State): State
    requires HasPass(s)
  {
    if s.watermark == 0 then
      // A channel without a watermark is seeded from its newest message.
      var seed := if s.history == [] then 0 else s.history[|s.history| - 1];
      WithPass(s.(watermark := seed, saved := if s.history == [] then s.saved else seed), Finished(Complete))
    else
      WithPass(s, Walking(Batch(s.history, s.watermark, max), 0, false))
  }

  function EndPassEffect(s: State): State
    requires HasPass(s) && PassOf(s).Finished?
  {
    var verdict := PassOf(s).verdict;
    if s.holder.Startup? then
      s.(holder := Free, blocked := verdict != Complete)
    else
      var released := verdict == Complete && s.generation == s.holder.generationAtStart;
      s.(holder := Free, watcher := Look, blocked := s.blocked && !released)
  }

  function DisconnectEffect(s: State): State {
    s.(connected := false, pending := [], holder := Free, blocked := true,
       generation := 0, wake := false, watcher := NotStarted)
  }

  function Effect(max: nat, s: State, e: Event): Option<State> {
    match e
    case Post(id) =>
      if id <= 0 || (s.history != [] && id <= s.history[|s.history| - 1]) then None
      else Some(s.(history := s.history + [id],
                   pending := if s.connected then s.pending + [id] else s.pending))
    case Connect =>
      if s.connected then None
      else Some(s.(connected := true, pending := [], holder := Startup(Fetching), blocked := true,
                   generation := 0, wake := false, watcher := NotStarted))
    case Crash => Some(DisconnectEffect(s).(watermark := s.saved))
    case Disconnect => Some(DisconnectEffect(s))
    case Flush => Some(s.(saved := s.watermark))
    case Fetch =>
      if HasPass(s) && PassOf(s).Fetching? then Some(FetchEffect(max, s)) else None
    case FetchRaised =>
      // a startup fetch that raises ends the connection: Disconnect
      if s.holder.Retry? && PassOf(s).Fetching? then Some(WithPass(s, Finished(Failed))) else None
    case AuditRaised =>
      if s.holder.Retry? && PassOf(s) == Finished(Failed)
      then Some(s.(holder := Free, watcher := Dead)) else None
    case EndPass =>
      if HasPass(s) && PassOf(s).Finished? then Some(EndPassEffect(s)) else None
    case Confirm => WalkEffect(max, s, e)
    case Refuse => WalkEffect(max, s, e)
    case Advance => WalkEffect(max, s, e)
    case AdvanceRaised(_) => WalkEffect(max, s, e)
    case Conclude => WalkEffect(max, s, e)
    case LiveAcquire(i) =>
      if s.connected && s.holder.Free? && i < |s.pending|
      then Some(s.(holder := Live(s.pending[i], false), pending := s.pending[..i] + s.pending[i + 1..]))
      else None
    case LiveConfirm => LiveEffect(s, e)
    case LiveRefuse => LiveEffect(s, e)
    case LiveLost => LiveEffect(s, e)
    case LiveCommit => LiveEffect(s, e)
    case LiveCommitRaised(_) => LiveEffect(s, e)
    case WatchStart => WatchEffect(s, e)
    case WatchLook => WatchEffect(s, e)
    case WatchUnpark => WatchEffect(s, e)
    case WatchElapse => WatchEffect(s, e)
    case WatchLock => WatchEffect(s, e)
  }

  /** The loop over the batch in _recover_channel. */
  function WalkEffect(max: nat, s: State, e: Event): Option<State> {
    if !HasPass(s) || !PassOf(s).Walking? then None
    else
      var Walking(batch, next, confirmed) := PassOf(s);
      if next >= |batch| then
        if e.Conclude? then Some(WithPass(s, Finished(if |batch| >= max then Capped else Complete)))
        else None
      else if !confirmed then
        if e.Confirm? then
          Some(WithPass(s.(processed := s.processed + {batch[next]}), Walking(batch, next, true)))
        else if e.Refuse? then Some(WithPass(s, Finished(Failed)))
        else None
      else
        if e.Advance? then
          Some(WithPass(s.(watermark := batch[next], saved := batch[next]), Walking(batch, next + 1, false)))
        else if e.AdvanceRaised? then
          Some(WithPass(s.(watermark := batch[next], saved := if e.reached then batch[next] else s.saved),
                        Finished(Failed)))
        else None
  }

  /** _handle_live_message once it holds the lock. */
  function LiveEffect(s: State, e: Event): Option<State> {
    if !s.holder.Live? then None
    else
      var Live(id, confirmed) := s.holder;
      if !confirmed then
        if e.LiveConfirm? then Some(s.(processed := s.processed + {id}, holder := Live(id, true)))
        else if e.LiveRefuse? then Some(RaiseBarrier(s.(holder := Free)))
        else if e.LiveLost? then Some(s.(holder := Free))
        else None
      else
        if e.LiveCommit? then
          Some(if s.blocked then s.(holder := Free)
               else s.(holder := Free, watermark := id, saved := id))
        else if e.LiveCommitRaised? && !s.blocked then
          Some(RaiseBarrier(s.(holder := Free, watermark := id, saved := if e.reached then id else s.saved)))
        else None
  }

  /** The loop of _retry_recovery_channel around its pass. */
  function WatchEffect(s: State, e: Event): Option<State> {
    match s.watcher
    case NotStarted =>
      if e.WatchStart? && s.connected && !s.holder.Startup? then Some(s.(watcher := Look)) else None
    case Look =>
      if !e.WatchLook? then None
      else if s.blocked then Some(s.(watcher := Sleeping(s.generation)))
      else Some(s.(watcher := Parked, wake := false))
    case Parked =>
      if e.WatchUnpark? && s.wake then Some(s.(watcher := Look)) else None
    case Sleeping(g) =>
      if e.WatchElapse? then Some(s.(watcher := WantsLock(g), wake := false)) else None
    case WantsLock(g) =>
      if e.WatchLock? && s.holder.Free?
      then Some(s.(watcher := HoldsLock, holder := Retry(Fetching, g, s.clock))) else None
    case HoldsLock => None
    case Dead => None
  }

  function Apply(max: nat, s: State, e: Event): Option<State> {
    match Effect(max, s, e)
    case None => None
    case Some(s') => Some(s'.(clock := s.clock + 1))
  }

  /** A run: the states it passes through and the events between them. */
  ghost predicate Path(max: nat, states: seq<State>, es: seq<Event>) {
    && |states| == |es| + 1
    && forall i :: 0 <= i < |es| ==> Apply(max, states[i], es[i]) == Some(states[i + 1])
  }

  /** A process that starts with watermark w0 over whatever the channel already holds. */
  ghost predicate Initial(s: State, w0: int) {
    && Ascending(s.history)
    && (forall id <- s.history :: id > 0)
    && s.watermark == s.saved == w0
    && !s.connected && s.pending == [] && s.holder == Free && s.blocked
    && s.watcher == NotStarted && s.clock == 1 && s.failedAt == 0
  }

  ghost predicate Ascending(ids: seq<int>) {
    forall i, j :: 0 <= i < j < |ids| ==> ids[i] < ids[j]
  }

  /**
   The premises on a run: handlers reach the lock in arrival order (the get_chat
   await before it does not reorder them), and the error log never raises while
   a live failure is being handled.
   */
  predicate WellBehaved(es: seq<Event>) {
    forall e <- es :: (e.LiveAcquire? ==> e.index == 0) && !e.LiveLost?
  }

  predicate ConnectionLost(e: Event) { e.Crash? || e.Disconnect? }

  /** No message in (w0, watermark] was skipped; nor will it be after a restart. */
  ghost predicate Safe(w0: int, s: State) {
    forall id <- s.history :: w0 < id && (id <= s.watermark || id <= s.saved) ==> id in s.processed
  }

  // ---- the inductive invariant ----

  ghost predicate InFlight(s: State, id: int) {
    id in s.pending || (s.holder.Live? && s.holder.id == id)
  }

  /** With the barrier down every message not yet processed still has its live handler. */
  ghost predicate CaughtUp(w0: int, s: State) {
    forall id <- s.history :: w0 < id && id !in s.processed ==> InFlight(s, id)
  }

  /** What is unprocessed during a walk: still ahead in the batch, or newer than all of it. */
  ghost predicate WalkCovers(w0: int, max: nat, s: State, walk: Walk)
    requires walk.Walking?
  {
    && walk.next <= |walk.batch| <= max
    && Ascending(walk.batch)
    && (walk.confirmed ==> walk.next < |walk.batch| && walk.batch[walk.next] in s.processed)
    && (forall id <- walk.batch :: id in s.history)
    && (forall id <- s.history :: w0 < id && id !in s.processed ==>
          id in walk.batch[walk.next..]
          || ((forall b <- walk.batch :: b < id) && (|walk.batch| == max || id in s.pending)))
  }

  ghost predicate PassInv(w0: int, max: nat, s: State) {
    HasPass(s) ==>
      match PassOf(s)
      case Fetching => true
      case Walking(_, _, _) => WalkCovers(w0, max, s, PassOf(s))
      case Finished(verdict) => verdict == Complete ==> CaughtUp(w0, s)
  }

  ghost predicate QueueInv(s: State) {
    && Ascending(s.history)
    && (forall id <- s.history :: id > 0)
    && Ascending(s.pending)
    && (forall id <- s.pending :: id in s.history)
    && (s.holder.Live? ==> s.holder.id in s.history && (s.holder.confirmed ==> s.holder.id in s.processed))
    && (!s.connected ==> s.blocked && s.holder.Free? && s.pending == [] && s.watcher.NotStarted?)
  }

  /** Handlers hold the lock before every younger pending one. */
  ghost predicate InOrder(s: State) {
    s.holder.Live? ==> forall id <- s.pending :: s.holder.id < id
  }

  ghost predicate WatcherInv(s: State) {
    && (s.watcher.HoldsLock? <==> s.holder.Retry?)
    && (s.holder.Startup? ==> s.watcher.NotStarted? && s.blocked)
    && (s.watcher.Parked? && s.blocked ==> s.wake)
    && (s.watcher.Sleeping? || s.watcher.WantsLock? ==> s.watcher.generationAtStart <= s.generation && s.blocked)
    && (s.holder.Retry? ==>
          s.holder.generationAtStart <= s.generation && s.blocked && s.failedAt < s.holder.startedAt <= s.clock)
    && s.failedAt < s.clock
  }

  ghost predicate Inv(w0: int, max: nat, s: State) {
    && w0 > 0
    && (s.watermark == w0 || s.watermark in s.history)
    && (s.saved == w0 || s.saved in s.history)
    && QueueInv(s)
    && Safe(w0, s)
    && (!s.blocked ==> CaughtUp(w0, s))
    && PassInv(w0, max, s)
    && WatcherInv(s)
  }
}
