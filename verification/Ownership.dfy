/**
 Which job owns a project advertised by several sources. A claim lasts TTL
 seconds; the table is pruned at every call.
 */
module Ownership {
  import opened Options

  const TTL: int := 2_592_000

  /** A stored record; Junk is one that is no record or has no usable time. */
  datatype Record = Record(owner: Option<string>, at: int) | Junk

  /** What the state file may hold: the present format, the old list, or something else. */
  datatype Table = Records(records: map<string, Record>) | OldList(ids: seq<string>) | Other

  predicate Live(r: Record, now: int) { r.Record? && r.at >= now - TTL }

  function Migrated(t: Table, now: int): map<string, Record> {
    match t
    case Records(m) => m
    case OldList(ids) => map id | id in ids :: Record(Some(""), now)
    case Other => map[]
  }

  /** _prune_cross_source_seen. */
  function Pruned(t: Table, now: int): map<string, Record> {
    var m := Migrated(t, now);
    map id | id in m && Live(m[id], now) :: m[id]
  }

  datatype Claim = Claim(project: string, job: string, now: int)

  predicate Creates(t: Table, c: Claim) { c.project !in Pruned(t, c.now) }

  /** claim_cross_source_project: the answer. */
  predicate Granted(t: Table, c: Claim) {
    Creates(t, c) || Pruned(t, c.now)[c.project].owner == Some(c.job)
  }

  /** claim_cross_source_project: the table afterwards. */
  function After(t: Table, c: Claim): Table {
    var m := Pruned(t, c.now);
    Records(if Creates(t, c) then m[c.project := Record(Some(c.job), c.now)] else m)
  }

  class Claims {
    var table: Table

    constructor (table: Table)
      ensures this.table == table
    {
      this.table := table;
    }

    method Prune(now: int)
      modifies this
      ensures table == Records(Pruned(old(table), now))
    {
      var records := Migrated(table, now);
      ghost var all := records;
      var toCheck, expired := records.Keys, {};
      while toCheck != {}
        invariant toCheck <= all.Keys
        invariant expired == set id | id in all.Keys - toCheck && !Live(all[id], now)
        decreases toCheck
      {
        var id :| id in toCheck;
        if records[id] == Junk || records[id].at < now - TTL {
          expired := expired + {id};
        }
        toCheck := toCheck - {id};
      }
      table := Records(records - expired);
    }

    method ClaimProject(c: Claim) returns (granted: bool)
      modifies this
      ensures granted <==> Granted(old(table), c)
      ensures table == After(old(table), c)
    {
      Prune(c.now);
      if c.project in table.records {
        return table.records[c.project].owner == Some(c.job);
      }
      table := Records(table.records[c.project := Record(Some(c.job), c.now)]);
      return true;
    }
  }

  // ---- any sequence of claims ----

  function Run(t: Table, claims: seq<Claim>): Table
    decreases |claims|
  {
    if claims == [] then t else After(Run(t, claims[..|claims| - 1]), claims[|claims| - 1])
  }

  /** Claim i finds the table the claims before it left. */
  function Before(t: Table, claims: seq<Claim>, i: nat): Table
    requires i <= |claims|
  {
    Run(t, claims[..i])
  }

  ghost predicate ClockForward(claims: seq<Claim>) {
    forall i, j | 0 <= i < j < |claims| :: claims[i].now <= claims[j].now
  }

  lemma BeforeNext(t: Table, claims: seq<Claim>, i: nat)
    requires i < |claims|
    ensures Before(t, claims, i + 1) == After(Before(t, claims, i), claims[i])
  {
    assert claims[..i + 1][..i] == claims[..i];
  }

  ghost predicate Holds(t: Table, project: string, r: Record) {
    t.Records? && project in t.records && t.records[project] == r
  }

  /** Until it expires, a record outlasts every claim, of this project or another. */
  lemma {:induction false} RecordStays(t: Table, claims: seq<Claim>, i: nat, j: nat, project: string, r: Record)
    requires i <= j < |claims| && ClockForward(claims) && r.Record?
    requires Holds(Before(t, claims, i), project, r) && claims[j].now <= r.at + TTL
    ensures Holds(Before(t, claims, j), project, r)
    decreases j
  {
    if i < j {
      RecordStays(t, claims, i, j - 1, project, r);
      BeforeNext(t, claims, j - 1);
    }
  }

  lemma Created(t: Table, claims: seq<Claim>, i: nat)
    requires i < |claims| && Creates(Before(t, claims, i), claims[i])
    ensures Holds(Before(t, claims, i + 1), claims[i].project, Record(Some(claims[i].job), claims[i].now))
  {
    BeforeNext(t, claims, i);
  }

  /**
   Main result: once a job has created a claim, every later claim of the project
   within the window is granted to that job and refused to every other, and
   creates nothing; so two creations for one project are more than TTL apart.
   */
  lemma OneOwnerPerWindow(t: Table, claims: seq<Claim>, i: nat, j: nat)
    requires i < j < |claims| && ClockForward(claims) && claims[i].project == claims[j].project
    requires Creates(Before(t, claims, i), claims[i])
    ensures claims[j].now <= claims[i].now + TTL ==>
              && !Creates(Before(t, claims, j), claims[j])
              && (Granted(Before(t, claims, j), claims[j]) <==> claims[j].job == claims[i].job)
    ensures Creates(Before(t, claims, j), claims[j]) ==> claims[j].now - claims[i].now > TTL
  {
    Created(t, claims, i);
    if claims[j].now <= claims[i].now + TTL {
      RecordStays(t, claims, i + 1, j, claims[i].project, Record(Some(claims[i].job), claims[i].now));
    }
  }

  // ---- from any table at the start ----

  /** The table as the first claim reads it. */
  function AtStart(t: Table, claims: seq<Claim>): Table
    requires claims != []
  {
    Records(Migrated(t, claims[0].now))
  }

  /** The old formats matter only for the first claim. */
  lemma {:induction false} MigrationIsFirst(t: Table, claims: seq<Claim>, j: nat)
    requires claims != [] && j <= |claims|
    ensures j > 0 ==> Before(t, claims, j) == Before(AtStart(t, claims), claims, j)
    ensures j < |claims| ==>
              (Granted(Before(t, claims, j), claims[j]) <==> Granted(Before(AtStart(t, claims), claims, j), claims[j]))
    ensures j < |claims| ==>
              (Creates(Before(t, claims, j), claims[j]) <==> Creates(Before(AtStart(t, claims), claims, j), claims[j]))
    decreases j
  {
    if j > 0 {
      MigrationIsFirst(t, claims, j - 1);
      BeforeNext(t, claims, j - 1);
      BeforeNext(AtStart(t, claims), claims, j - 1);
      if j == 1 {
        assert claims[..0] == [];
      }
    }
  }

  /** A claim by another job made this one's project taken at its time. */
  ghost predicate TakenByOther(t: Table, claims: seq<Claim>, i: nat, j: nat)
    requires i < |claims| && j < |claims|
  {
    && claims[i].project == claims[j].project && claims[i].job != claims[j].job
    && claims[j].now <= claims[i].now + TTL && Creates(Before(t, claims, i), claims[i])
  }

  /** A record of the first table, still alive, gives the project to another owner or to none. */
  ghost predicate HeldAtStart(t: Table, claims: seq<Claim>, j: nat)
    requires j < |claims|
  {
    var m := Migrated(t, claims[0].now);
    var c := claims[j];
    c.project in m && Live(m[c.project], c.now) && m[c.project].owner != Some(c.job)
  }

  /** What a record in the table came from: a creation, or the table at the start. */
  lemma {:induction false} RecordFrom(t: Table, claims: seq<Claim>, j: nat, project: string)
    requires j <= |claims| && t.Records?
    requires Before(t, claims, j).Records? && project in Before(t, claims, j).records
    ensures var r := Before(t, claims, j).records[project];
            Holds(t, project, r) || exists i | 0 <= i < j ::
              claims[i].project == project && Creates(Before(t, claims, i), claims[i])
              && r == Record(Some(claims[i].job), claims[i].now)
    decreases j
  {
    if j > 0 {
      BeforeNext(t, claims, j - 1);
      if !(claims[j - 1].project == project && Creates(Before(t, claims, j - 1), claims[j - 1])) {
        RecordFrom(t, claims, j - 1, project);
      }
    }
  }

  lemma StaysRecords(t: Table, claims: seq<Claim>, j: nat)
    requires j <= |claims| && t.Records?
    ensures Before(t, claims, j).Records?
  {
    if j > 0 {
      BeforeNext(t, claims, j - 1);
    }
  }

  /** A live first record is what every claim of its project meets. */
  lemma FirstRecordDecides(t: Table, claims: seq<Claim>, j: nat)
    requires j < |claims| && ClockForward(claims) && t.Records?
    requires claims[j].project in t.records && Live(t.records[claims[j].project], claims[j].now)
    ensures Granted(Before(t, claims, j), claims[j]) <==> t.records[claims[j].project].owner == Some(claims[j].job)
    ensures forall i | 0 <= i < j && claims[i].project == claims[j].project :: !Creates(Before(t, claims, i), claims[i])
  {
    var r := t.records[claims[j].project];
    assert claims[..0] == [];
    RecordStays(t, claims, 0, j, claims[j].project, r);
    forall i | 0 <= i < j && claims[i].project == claims[j].project
      ensures !Creates(Before(t, claims, i), claims[i])
    {
      RecordStays(t, claims, 0, i, claims[j].project, r);
    }
  }

  lemma GrantedFromRecords(t: Table, claims: seq<Claim>, j: nat)
    requires j < |claims| && ClockForward(claims) && t.Records?
    ensures Granted(Before(t, claims, j), claims[j]) <==>
            !HeldAtStart(t, claims, j) && !exists i | 0 <= i < j :: TakenByOther(t, claims, i, j)
  {
    var c := claims[j];
    if c.project in t.records && Live(t.records[c.project], c.now) {
      FirstRecordDecides(t, claims, j);
    } else {
      forall i | 0 <= i < j && claims[i].project == c.project && Creates(Before(t, claims, i), claims[i])
                 && c.now <= claims[i].now + TTL
        ensures Granted(Before(t, claims, j), c) <==> claims[i].job == c.job
      {
        OneOwnerPerWindow(t, claims, i, j);
      }
      if !Granted(Before(t, claims, j), c) {
        StaysRecords(t, claims, j);
        RecordFrom(t, claims, j, c.project);
        var r := Before(t, claims, j).records[c.project];
        assert !Holds(t, c.project, r);
        var i :| 0 <= i < j && claims[i].project == c.project && Creates(Before(t, claims, i), claims[i])
                 && r == Record(Some(claims[i].job), claims[i].now);
        assert TakenByOther(t, claims, i, j);
      }
    }
  }

  /**
   The converse, whatever the state file held at the start: a claim is granted
   exactly when no other job created a claim of the project within the last TTL
   seconds and no live record of the first table gives it to somebody else.
   */
  lemma GrantedIff(t: Table, claims: seq<Claim>, j: nat)
    requires j < |claims| && ClockForward(claims)
    ensures Granted(Before(t, claims, j), claims[j]) <==>
            !HeldAtStart(t, claims, j) && !exists i | 0 <= i < j :: TakenByOther(t, claims, i, j)
  {
    var first := AtStart(t, claims);
    MigrationIsFirst(t, claims, j);
    GrantedFromRecords(first, claims, j);
    assert HeldAtStart(t, claims, j) <==> HeldAtStart(first, claims, j);
    forall i | 0 <= i < j ensures TakenByOther(t, claims, i, j) <==> TakenByOther(first, claims, i, j) {
      MigrationIsFirst(t, claims, i);
    }
  }

  /**
   Ids carried over from the old list have no owner. Over any run of claims, a job
   with a name is refused such a project until a whole window after the first
   claim of any project; from then on it is granted unless another took it since.
   */
  lemma MigratedGrantedIff(ids: seq<string>, claims: seq<Claim>, j: nat)
    requires j < |claims| && ClockForward(claims) && claims[j].project in ids && claims[j].job != ""
    ensures Granted(Before(OldList(ids), claims, j), claims[j]) <==>
            claims[j].now > claims[0].now + TTL
            && !exists i | 0 <= i < j :: TakenByOther(OldList(ids), claims, i, j)
  {
    GrantedIff(OldList(ids), claims, j);
  }
}
