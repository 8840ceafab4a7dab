/**
 The rows a runner touches in the hub database: one compare-and-set row per agent
 instance and a journal of deliveries keyed by (instance, dedup key).  Every SQL
 statement is one atomic operation, given here as a function on the table and then as
 a method of the store class that updates the table in place.
 */
module HubStore {
  import opened Common

  type InstanceId = int
  type RunnerId = int
  type Key = string

  /** A row is never `running` without a runner (table check), so the pair is one value. */
  datatype Row = Down | Running(runner: RunnerId)

  type Rows = map<InstanceId, Row>

  /** (instance, dedup key) -> processed_at is set */
  type Journal = map<(InstanceId, Key), bool>

  datatype Outcome = Claimed | Unheld | HeldBySelf | HeldByOther(holder: Option<RunnerId>) | Missing

  /** The guard of the claiming UPDATE: `status = 'down' OR runner_id = self`. */
  predicate CanClaim(rows: Rows, i: InstanceId, r: RunnerId) {
    i in rows && (rows[i].Down? || rows[i].runner == r)
  }

  function ClaimRow(rows: Rows, i: InstanceId, r: RunnerId): Rows {
    if CanClaim(rows, i, r) then rows[i := Running(r)] else rows
  }

  predicate CanRelease(rows: Rows, i: InstanceId, r: RunnerId) {
    i in rows && rows[i] == Running(r)
  }

  function ReleaseRow(rows: Rows, i: InstanceId, r: RunnerId): Rows {
    if CanRelease(rows, i, r) then rows[i := Down] else rows
  }

  /** Held by another runner, or absent: a peeking runner hands the event off. */
  predicate Foreign(rows: Rows, i: InstanceId, r: RunnerId) {
    i !in rows || (rows[i].Running? && rows[i].runner != r)
  }

  predicate Processed(journal: Journal, i: InstanceId, k: Key) {
    (i, k) in journal && journal[(i, k)]
  }

  /** Upsert that keeps `processed_at`. */
  function BeginRow(journal: Journal, i: InstanceId, k: Key): Journal {
    if (i, k) in journal then journal else journal[(i, k) := false]
  }

  /** UPDATE: no row, no effect. */
  function MarkRow(journal: Journal, i: InstanceId, k: Key): Journal {
    if (i, k) in journal then journal[(i, k) := true] else journal
  }

  /** The Postgres adapter. */
  class HubInstanceStore {
    var rows: Rows
    var journal: Journal

    constructor ()
      ensures rows == map[] && journal == map[]
    {
      rows := map[];
      journal := map[];
    }

    /** A claim takes a row that is down or already ours and nothing else. */
    method ClaimInstance(i: InstanceId, r: RunnerId) returns (outcome: Outcome)
      modifies this`rows
      ensures rows == ClaimRow(old(rows), i, r)
      ensures outcome.Claimed? <==> i in rows && rows[i] == Running(r)
      ensures outcome.Missing? <==> i !in rows
      ensures outcome.HeldByOther? <==> i in old(rows) && old(rows)[i].Running? && old(rows)[i].runner != r
      ensures outcome.HeldByOther? ==> outcome.holder == Some(old(rows)[i].runner) && rows == old(rows)
      ensures !outcome.Unheld? && !outcome.HeldBySelf?
    {
      if i in rows && (rows[i].Down? || rows[i].runner == r) {
        rows := rows[i := Running(r)];
        return Claimed;
      }
      if i !in rows {
        return Missing;
      }
      outcome := HeldByOther(Some(rows[i].runner));
    }

    /** The read-only check announces exactly what a claim would meet. */
    method PeekHolder(i: InstanceId, r: RunnerId) returns (outcome: Outcome)
      ensures outcome.Missing? || outcome.HeldByOther? <==> Foreign(rows, i, r)
      ensures outcome.Missing? || outcome.HeldByOther? <==> !CanClaim(rows, i, r)
      ensures outcome.Missing? <==> i !in rows
      ensures outcome.HeldBySelf? <==> CanRelease(rows, i, r)
      ensures !outcome.Claimed?
    {
      if i !in rows {
        return Missing;
      }
      match rows[i] {
        case Down => outcome := Unheld;
        case Running(h) => outcome := if h == r then HeldBySelf else HeldByOther(Some(h));
      }
    }

    method ReleaseInstance(i: InstanceId, r: RunnerId) returns (released: bool)
      modifies this`rows
      ensures rows == ReleaseRow(old(rows), i, r)
      ensures released <==> CanRelease(old(rows), i, r)
      ensures released ==> rows == old(rows)[i := Down]
      ensures !CanRelease(rows, i, r)
    {
      released := i in rows && rows[i] == Running(r);
      if released {
        rows := rows[i := Down];
      }
    }

    /** True exactly when the delivery has not been processed; the row exists afterwards. */
    method BeginEvent(i: InstanceId, k: Key) returns (fresh_: bool)
      modifies this`journal
      ensures journal == BeginRow(old(journal), i, k)
      ensures fresh_ <==> !Processed(old(journal), i, k)
      ensures (i, k) in journal && journal[(i, k)] == !fresh_
    {
      if (i, k) !in journal {
        journal := journal[(i, k) := false];
      }
      fresh_ := !journal[(i, k)];
    }

    method MarkProcessed(i: InstanceId, k: Key)
      modifies this`journal
      ensures journal == MarkRow(old(journal), i, k)
      ensures Processed(journal, i, k) <==> (i, k) in old(journal)
    {
      if (i, k) in journal {
        journal := journal[(i, k) := true];
      }
    }
  }
}
