/**
 The state file and its backup. A save writes a temporary file, renames it over
 the main file, and does the same for the backup; a crash can fall between any
 two of its six steps.
 */
module DurableState {
  /** Cut is what an interrupted write leaves; Damaged is a file spoiled from outside. */
  datatype File<V> = Missing | Whole(value: V) | Cut | Damaged

  datatype Disk<V> = Disk(main: File<V>, backup: File<V>, temp: File<V>, backupTemp: File<V>)

  const STEPS: nat := 6

  /** A save of 'value' that got through 'steps' of its six steps. */
  datatype Attempt<V> = Attempt(value: V, steps: nat)

  /** The disk after the first 'steps' steps of a save. */
  function Saved<V>(d: Disk<V>, value: V, steps: nat): Disk<V> {
    var d1 := if steps >= 1 then d.(temp := Cut) else d;
    var d2 := if steps >= 2 then d1.(temp := Whole(value)) else d1;
    var d3 := if steps >= 3 then d2.(main := d2.temp, temp := Missing) else d2;
    var d4 := if steps >= 4 then d3.(backupTemp := Cut) else d3;
    var d5 := if steps >= 5 then d4.(backupTemp := Whole(value)) else d4;
    if steps >= 6 then d5.(backup := d5.backupTemp, backupTemp := Missing) else d5
  }

  /** What load comes to: a value, and whether it saves it again, or a refusal to start. */
  datatype Loaded<V> = Loaded(value: V, saves: bool) | Corrupt

  /** load. */
  function Load<V>(d: Disk<V>, empty: V): Loaded<V> {
    if d.main.Missing? then Loaded(empty, true)
    else if d.main.Whole? then Loaded(d.main.value, false)
    else if d.backup.Whole? then Loaded(d.backup.value, true)
    else Corrupt
  }

  class StateFile<V(==)> {
    var data: V
    var disk: Disk<V>

    constructor (data: V, disk: Disk<V>)
      ensures this.data == data && this.disk == disk
    {
      this.data, this.disk := data, disk;
    }

    /** save, stopped after the given number of steps. */
    method Save(steps: nat) returns (completed: bool)
      modifies this`disk
      ensures disk == Saved(old(disk), data, steps)
      ensures completed <==> steps >= STEPS
    {
      if steps == 0 {
        return false;
      }
      disk := disk.(temp := Cut);
      if steps == 1 {
        return false;
      }
      disk := disk.(temp := Whole(data));
      if steps == 2 {
        return false;
      }
      disk := disk.(main := disk.temp, temp := Missing);
      if steps == 3 {
        return false;
      }
      disk := disk.(backupTemp := Cut);
      if steps == 4 {
        return false;
      }
      disk := disk.(backupTemp := Whole(data));
      if steps == 5 {
        return false;
      }
      disk := disk.(backup := disk.backupTemp, backupTemp := Missing);
      return true;
    }

    method LoadState(empty: V, steps: nat) returns (ok: bool)
      modifies this
      ensures ok <==> Load(old(disk), empty).Loaded?
      ensures ok ==> data == Load(old(disk), empty).value
      ensures disk == var l := Load(old(disk), empty);
                      if l.Loaded? && l.saves then Saved(old(disk), l.value, steps) else old(disk)
    {
      if disk.main.Missing? {
        data := empty;
        var _ := Save(steps);
        return true;
      }
      if disk.main.Whole? {
        data := disk.main.value;
        return true;
      }
      if disk.backup.Whole? {
        data := disk.backup.value;
        var _ := Save(steps);
        return true;
      }
      return false;
    }
  }

  // ---- any run of saves, crashes, restarts, damage to the main file and its deletion ----

  datatype Event<V> = Save(attempt: Attempt<V>) | Restart(steps: nat) | Spoil | Delete

  /** The disk, every save begun so far, and whether main was deleted since it was last renamed. */
  datatype World<V> = World(disk: Disk<V>, log: seq<Attempt<V>>, deleted: bool)

  function Begun<V>(w: World<V>, a: Attempt<V>): World<V> {
    World(Saved(w.disk, a.value, a.steps), w.log + [a], w.deleted && a.steps < 3)
  }

  function Step<V>(w: World<V>, e: Event<V>, empty: V): World<V> {
    match e
    case Save(a) => Begun(w, a)
    case Restart(steps) =>
      var l := Load(w.disk, empty);
      if l.Loaded? && l.saves then Begun(w, Attempt(l.value, steps)) else w
    case Spoil => if w.disk.main.Missing? then w else w.(disk := w.disk.(main := Damaged))
    case Delete => w.(disk := w.disk.(main := Missing), deleted := true)
  }

  function Run<V>(w: World<V>, events: seq<Event<V>>, empty: V): World<V>
    decreases |events|
  {
    if events == [] then w else Step(Run(w, events[..|events| - 1], empty), events[|events| - 1], empty)
  }

  /** The number of the last save that got through that many steps, counted from 1; 0 if none did. */
  function Last<V>(log: seq<Attempt<V>>, steps: nat): (n: nat)
    ensures n <= |log| && (n > 0 ==> log[n - 1].steps >= steps)
    ensures forall i | n <= i < |log| :: log[i].steps < steps
    decreases |log|
  {
    if log == [] then 0
    else if log[|log| - 1].steps >= steps then |log|
    else Last(log[..|log| - 1], steps)
  }

  function Content<V>(log: seq<Attempt<V>>, steps: nat): File<V> {
    var n := Last(log, steps);
    if n == 0 then Missing else Whole(log[n - 1].value)
  }

  /**
   The main file is the last save renamed, unless it was deleted or spoiled since;
   the backup is the last save completed.
   */
  ghost predicate Inv<V(!new)>(w: World<V>) {
    && w.disk.backup == Content(w.log, STEPS)
    && if w.deleted then w.disk.main.Missing?
       else w.disk.main == Content(w.log, 3) || (w.disk.main.Damaged? && Last(w.log, 3) > 0)
  }

  lemma LastOfOneMore<V>(log: seq<Attempt<V>>, a: Attempt<V>, steps: nat)
    ensures Last(log + [a], steps) == if a.steps >= steps then |log| + 1 else Last(log, steps)
    ensures Content(log + [a], steps) == if a.steps >= steps then Whole(a.value) else Content(log, steps)
  {
    assert (log + [a])[..|log|] == log;
  }

  /** What a save leaves of the two files. */
  lemma SavedFiles<V>(d: Disk<V>, value: V, steps: nat)
    ensures Saved(d, value, steps).main == if steps >= 3 then Whole(value) else d.main
    ensures Saved(d, value, steps).backup == if steps >= STEPS then Whole(value) else d.backup
  {
  }

  lemma SaveKeepsInv<V(!new)>(w: World<V>, a: Attempt<V>)
    requires Inv(w)
    ensures Inv(Begun(w, a))
  {
    SavedFiles(w.disk, a.value, a.steps);
    LastOfOneMore(w.log, a, 3);
    LastOfOneMore(w.log, a, STEPS);
  }

  lemma {:induction false} RunKeepsInv<V(!new)>(w: World<V>, events: seq<Event<V>>, empty: V)
    requires Inv(w)
    ensures Inv(Run(w, events, empty))
    decreases |events|
  {
    if events != [] {
      var before := Run(w, events[..|events| - 1], empty);
      RunKeepsInv(w, events[..|events| - 1], empty);
      match events[|events| - 1]
      case Save(a) => SaveKeepsInv(before, a);
      case Restart(steps) =>
        var l := Load(before.disk, empty);
        if l.Loaded? && l.saves {
          SaveKeepsInv(before, Attempt(l.value, steps));
        }
      case Spoil =>
      case Delete =>
    }
  }

  lemma {:induction false} LastIsMonotone<V>(log: seq<Attempt<V>>, few: nat, many: nat)
    requires few <= many
    ensures Last(log, many) <= Last(log, few)
    decreases |log|
  {
    if log != [] {
      LastIsMonotone(log[..|log| - 1], few, many);
    }
  }

  /** What a load finds, told from the saves alone. */
  ghost predicate Recovers<V(!new)>(w: World<V>, empty: V) {
    var renamed, completed := Last(w.log, 3), Last(w.log, STEPS);
    var l := Load(w.disk, empty);
    && !w.disk.main.Cut? && !w.disk.backup.Cut? && completed <= renamed
    && if renamed == 0 || w.deleted then l == Loaded(empty, true)
       else if !w.disk.main.Damaged? then l == Loaded(w.log[renamed - 1].value, false)
       else if completed > 0 then l == Loaded(w.log[completed - 1].value, true)
       else l == Corrupt
  }

  lemma InvRecovers<V(!new)>(w: World<V>, empty: V)
    requires Inv(w)
    ensures Recovers(w, empty)
  {
    LastIsMonotone(w.log, 3, STEPS);
  }

  function Fresh<V>(): World<V> { World(Disk(Missing, Missing, Missing, Missing), [], false) }

  /**
   Main result: from an empty disk, whatever saves, crashes, restarts, damage to
   the main file and deletions of it come in whatever order, no reader meets a
   file cut short. A load gives, from the main file, the last save renamed; if
   that was spoiled, exactly the last save completed; it refuses only when there
   was none; and it starts empty when nothing was renamed or main was deleted.
   */
  lemma LoadAfterAnyRun<V(!new)>(events: seq<Event<V>>, empty: V)
    ensures Recovers(Run(Fresh(), events, empty), empty)
  {
    RunKeepsInv(Fresh<V>(), events, empty);
    InvRecovers(Run(Fresh(), events, empty), empty);
  }

  /**
   The load starts empty before the first rename; after it, it refuses or gives
   the value of a save begun, none older than the last completed.
   */
  ghost predicate Faithful<V(!new)>(w: World<V>, empty: V) {
    var l := Load(w.disk, empty);
    if Last(w.log, 3) == 0 then l == Loaded(empty, true)
    else l.Corrupt? || BegunSince(w.log, Last(w.log, STEPS), l.value)
  }

  /** One of the saves from number 'from' on had this value. */
  ghost predicate BegunSince<V(!new)>(log: seq<Attempt<V>>, from: nat, value: V) {
    exists k | 0 <= k < |log| :: from <= k + 1 && log[k].value == value
  }

  /**
   The documented guarantee holds after a run if and only if the main file was not
   deleted since it was last renamed, or nothing had been renamed, or the empty
   state is itself what was being saved. Deleted, main is taken for a first start,
   although the backup still holds the last save completed.
   */
  lemma FaithfulIffNotDeleted<V(!new)>(events: seq<Event<V>>, empty: V)
    ensures var w := Run(Fresh(), events, empty);
            Faithful(w, empty) <==>
            !w.deleted || Last(w.log, 3) == 0 || BegunSince(w.log, Last(w.log, STEPS), empty)
  {
    RunKeepsInv(Fresh<V>(), events, empty);
    var w := Run(Fresh(), events, empty);
    InvRecovers(w, empty);
    var renamed, completed := Last(w.log, 3), Last(w.log, STEPS);
    if renamed > 0 && !w.deleted {
      assert BegunSince(w.log, completed, w.log[renamed - 1].value);
      if completed > 0 {
        assert BegunSince(w.log, completed, w.log[completed - 1].value);
      }
    }
  }

  /** The event begins a save and gets to its end. */
  predicate Completes<V(==)>(w: World<V>, e: Event<V>, empty: V) {
    match e
    case Save(a) => a.steps >= STEPS
    case Restart(steps) => steps >= STEPS && Load(w.disk, empty).Loaded? && Load(w.disk, empty).saves
    case _ => false
  }

  ghost predicate CompletedSince<V(!new)>(w: World<V>, events: seq<Event<V>>, empty: V) {
    exists i | 0 <= i < |events| :: Completes(Run(w, events[..i], empty), events[i], empty)
  }

  lemma StepCompletes<V(!new)>(w: World<V>, e: Event<V>, empty: V)
    ensures Last(Step(w, e, empty).log, STEPS) == Last(w.log, STEPS) <==> !Completes(w, e, empty)
    ensures Last(w.log, STEPS) <= Last(Step(w, e, empty).log, STEPS)
  {
    match e
    case Save(a) => LastOfOneMore(w.log, a, STEPS);
    case Restart(steps) =>
      var l := Load(w.disk, empty);
      if l.Loaded? && l.saves {
        LastOfOneMore(w.log, Attempt(l.value, steps), STEPS);
      }
    case _ =>
  }

  lemma {:induction false} LastSince<V(!new)>(w: World<V>, events: seq<Event<V>>, empty: V)
    ensures Last(w.log, STEPS) <= Last(Run(w, events, empty).log, STEPS)
    ensures Last(Run(w, events, empty).log, STEPS) == Last(w.log, STEPS) <==> !CompletedSince(w, events, empty)
    decreases |events|
  {
    if events != [] {
      var n := |events| - 1;
      var before := events[..n];
      LastSince(w, before, empty);
      StepCompletes(Run(w, before, empty), events[n], empty);
      CompletedOneMore(w, events, empty);
    }
  }

  lemma CompletedOneMore<V(!new)>(w: World<V>, events: seq<Event<V>>, empty: V)
    requires events != []
    ensures var n := |events| - 1;
            CompletedSince(w, events, empty) <==>
            CompletedSince(w, events[..n], empty) || Completes(Run(w, events[..n], empty), events[n], empty)
  {
    var n := |events| - 1;
    assert forall i | 0 <= i < n :: events[..n][..i] == events[..i];
  }

  /**
   What a deletion costs. The backup holds the last save completed, and that is the
   one it held when main was deleted if and only if no save, and no restart, has run
   to its end since; a restart that comes next makes it the empty state.
   */
  lemma BackupSurvivesIff<V(!new)>(events: seq<Event<V>>, more: seq<Event<V>>, empty: V)
    ensures var deleted := Run(Fresh(), events + [Delete], empty);
            var end := Run(deleted, more, empty);
            && end.disk.backup == Content(end.log, STEPS)
            && (Last(end.log, STEPS) == Last(deleted.log, STEPS) <==> !CompletedSince(deleted, more, empty))
            && Completes(deleted, Restart(STEPS), empty)
            && Step(deleted, Restart(STEPS), empty).disk.backup == Whole(empty)
  {
    var deleted := Run(Fresh(), events + [Delete], empty);
    assert (events + [Delete])[..|events|] == events;
    RunKeepsInv(Fresh<V>(), events + [Delete], empty);
    RunKeepsInv(deleted, more, empty);
    LastSince(deleted, more, empty);
    SavedFiles(deleted.disk, empty, STEPS);
  }
}
