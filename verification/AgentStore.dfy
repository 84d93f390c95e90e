/** The durable queue the engine writes to. Every method is one atomic SQLite
    transaction or query; it either happens completely or reports an error and
    changes nothing. */
module AgentStore {
  import opened Options
  import opened JobStates
  import opened HandoffProtocol

  /** A job as a query returned it: later writes do not change it. */
  datatype LocalJob = LocalJob(id: JobId, row: Row)

  datatype JobFacts = JobFacts(printer: string, pdf: bool, cloud: bool, routed: bool, expires: Option<int>)

  /** The row of a job that was just accepted. */
  function QueuedRow(facts: JobFacts, order: nat): Row {
    Row(facts.printer, order, facts.pdf, facts.cloud, facts.routed, QueuedLocal, facts.expires, None, None,
      [QueuedLocal], None)
  }

  /** `runnable_heads` over the stored rows. */
  predicate RunnableHead(rows: map<JobId, Row>, j: JobId, now: int)
    requires j in rows
  {
    var row := rows[j];
    && Waiting(row)
    && (row.nextAttempt.Some? ==> row.nextAttempt.value <= now)
    && (row.expires.Some? ==> row.expires.value > now)
    && (forall k | k in rows && rows[k].printer == row.printer :: !HoldsPrinter(rows[k].state))
    && (forall k | k in rows && rows[k].printer == row.printer && Waiting(rows[k]) ::
          row.order <= rows[k].order)
  }

  predicate WaitingPastDeadline(row: Row, now: int) {
    (row.state == QueuedLocal || row.state == FailedRetryable) && row.expires.Some? && row.expires.value <= now
  }

  predicate NoDuplicates(jobs: seq<LocalJob>) {
    forall i, k | 0 <= i < k < |jobs| :: jobs[i].id != jobs[k].id
  }

  predicate Current(rows: map<JobId, Row>, jobs: seq<LocalJob>) {
    forall i | 0 <= i < |jobs| :: jobs[i].id in rows && rows[jobs[i].id] == jobs[i].row
  }

  predicate NoLater(a: Row, b: Row) {
    a.recon.Some? && b.recon.Some? && a.recon.value.nextObserve <= b.recon.value.nextObserve
  }

  /** The rows of one query, never none and never more than 100. */
  function PageSize(limit: nat): nat {
    if limit < 1 then 1 else if limit > 100 then 100 else limit
  }

  /** At most `size` due jobs, each once and in the order in which they fell due; a due
      job is passed over only for `size` jobs that are due no later. */
  ghost predicate EarliestDue(rows: map<JobId, Row>, items: seq<LocalJob>, now: int, size: nat) {
    && Current(rows, items) && NoDuplicates(items) && |items| <= size
    && (forall i | 0 <= i < |items| :: IsDue(items[i].row, now))
    && (forall i, k | 0 <= i < k < |items| :: NoLater(items[i].row, items[k].row))
    && (forall j | j in rows && IsDue(rows[j], now) && LocalJob(j, rows[j]) !in items ::
          |items| == size && forall i | 0 <= i < |items| :: NoLater(items[i].row, rows[j]))
  }

  lemma {:induction false} Earliest(rows: map<JobId, Row>, jobs: set<JobId>, now: int) returns (first: JobId)
    requires jobs != {} && forall j | j in jobs :: j in rows && IsDue(rows[j], now)
    ensures first in jobs && forall j | j in jobs :: NoLater(rows[first], rows[j])
    decreases |jobs|
  {
    var one :| one in jobs;
    first := one;
    if jobs != {one} {
      var rest := jobs - {one};
      var other := Earliest(rows, rest, now);
      assert forall j | j in jobs && j != one :: j in rest;
      if NoLater(rows[other], rows[one]) { first := other; }
    }
  }

  class Store {
    var rows: map<JobId, Row>
    var nextSequence: map<string, nat>

    /** Every stored sequence number of a printer is below the next one to hand out. */
    ghost predicate Valid()
      reads this
    {
      forall j | j in rows :: rows[j].printer in nextSequence && rows[j].order < nextSequence[rows[j].printer]
    }

    constructor ()
      ensures Valid() && rows == map[]
    {
      rows, nextSequence := map[], map[];
    }

    /** Accepting the same job again changes nothing; a new job is queued behind
        every earlier job of its printer. */
    method AcceptJob(j: JobId, facts: JobFacts) returns (ok: bool)
      requires Valid()
      modifies this
      ensures Valid()
      ensures !ok || j in old(rows) ==> rows == old(rows)
      ensures ok && j !in old(rows) ==>
        && j in rows && rows == old(rows)[j := rows[j]]
        && (forall k | k in old(rows) && old(rows)[k].printer == facts.printer ::
              old(rows)[k].order < rows[j].order)
        && rows[j] == QueuedRow(facts, rows[j].order)
        && rows[j] == Row(facts.printer, rows[j].order, facts.pdf, facts.cloud, facts.routed, QueuedLocal,
             facts.expires, None, None, [QueuedLocal], None)
    {
      var fail: bool := *;
      if fail { return false; }
      if j !in rows {
        var order := if facts.printer in nextSequence then nextSequence[facts.printer] else 1;
        nextSequence := nextSequence[facts.printer := order + 1];
        rows := rows[j := QueuedRow(facts, order)];
      }
      ok := true;
    }

    method AppendNextEvent(j: JobId, s: JobState) returns (ok: bool)
      requires Valid()
      modifies this`rows
      ensures Valid()
      ensures ok ==> j in old(rows) && rows == old(rows)[j := Logged(old(rows)[j], s)]
      ensures !ok ==> rows == old(rows)
    {
      var fail: bool := *;
      if fail || j !in rows { return false; }
      rows := rows[j := Logged(rows[j], s)];
      ok := true;
    }

    /** Acceptance, its event and the reconciliation schedule commit together, and
        only for a job still in `spool_intent`. */
    method RecordNativeAcceptance(j: JobId, native: string, now: int) returns (ok: bool)
      requires Valid()
      modifies this`rows
      ensures Valid()
      ensures ok ==> j in old(rows) && old(rows)[j].state == SpoolIntent
      ensures ok ==> rows == old(rows)[j := Logged(old(rows)[j], AcceptedBySpooler).(
        nativeId := Some(native), recon := Some(AcceptanceSchedule(old(rows)[j].recon, now)))]
      ensures !ok ==> rows == old(rows)
      ensures ok ==>
        && rows[j].state == AcceptedBySpooler && rows[j].nativeId == Some(native) && rows[j].recon.Some?
        && rows[j].recon.value.nextObserve == now + 2_000 && rows[j].recon.value.deadline == now + 600_000
    {
      var fail: bool := *;
      if fail || j !in rows || rows[j].state != SpoolIntent { return false; }
      rows := rows[j := Logged(rows[j], AcceptedBySpooler).(
        nativeId := Some(native), recon := Some(AcceptanceSchedule(rows[j].recon, now)))];
      ok := true;
    }

    method RecordLocalRetryableFailure(j: JobId, next: int) returns (ok: bool)
      requires Valid()
      modifies this`rows
      ensures Valid()
      ensures ok ==> j in old(rows) && old(rows)[j].state == SpoolIntent && !old(rows)[j].cloud
      ensures ok ==> rows == old(rows)[j := Logged(old(rows)[j], FailedRetryable).(nextAttempt := Some(next))]
      ensures !ok ==> rows == old(rows)
    {
      var fail: bool := *;
      if fail || j !in rows || rows[j].state != SpoolIntent || rows[j].cloud { return false; }
      rows := rows[j := Logged(rows[j], FailedRetryable).(nextAttempt := Some(next))];
      ok := true;
    }

    method RecordReconciliationAttempt(j: JobId, now: int) returns (ok: bool)
      requires Valid()
      modifies this`rows
      ensures Valid()
      ensures ok ==> j in old(rows) && old(rows)[j].recon.Some?
      ensures ok ==>
        rows == old(rows)[j := old(rows)[j].(recon := Some(AttemptSchedule(old(rows)[j].recon.value, now)))]
      ensures !ok ==> rows == old(rows)
      ensures ok ==>
        var before := old(rows)[j].recon.value;
        rows[j].recon == Some(Schedule(now + 2_000, before.deadline, before.attempts + 1, false))
    {
      var fail: bool := *;
      if fail || j !in rows || rows[j].recon.None? { return false; }
      rows := rows[j := rows[j].(recon := Some(AttemptSchedule(rows[j].recon.value, now)))];
      ok := true;
    }

    /** An unknown job has no schedule to drop. */
    method FinishReconciliation(j: JobId) returns (ok: bool)
      requires Valid()
      modifies this`rows
      ensures Valid()
      ensures rows == if ok && j in old(rows) then old(rows)[j := old(rows)[j].(recon := None)] else old(rows)
    {
      var fail: bool := *;
      if fail { return false; }
      if j in rows { rows := rows[j := rows[j].(recon := None)]; }
      ok := true;
    }

    method RecordLocalHandoffUncertainty(j: JobId) returns (ok: bool)
      requires Valid()
      modifies this`rows
      ensures Valid()
      ensures ok ==> j in old(rows) && old(rows)[j].state == SpoolIntent && !old(rows)[j].cloud
      ensures ok ==> rows == old(rows)[j := Logged(old(rows)[j], DeliveryUncertain)]
      ensures !ok ==> rows == old(rows)
    {
      var fail: bool := *;
      if fail || j !in rows || rows[j].state != SpoolIntent || rows[j].cloud { return false; }
      rows := rows[j := Logged(rows[j], DeliveryUncertain)];
      ok := true;
    }

    /** The FIFO head of every printer that is free, each once. */
    method RunnableHeads(now: int) returns (heads: seq<LocalJob>)
      ensures Current(rows, heads) && NoDuplicates(heads)
      ensures forall j | j in rows :: RunnableHead(rows, j, now) <==> LocalJob(j, rows[j]) in heads
    {
      heads := [];
      var left := rows.Keys;
      while left != {}
        invariant left <= rows.Keys
        invariant Current(rows, heads) && NoDuplicates(heads)
        invariant forall i | 0 <= i < |heads| :: heads[i].id !in left
        invariant forall j | j in rows && j !in left :: RunnableHead(rows, j, now) <==> LocalJob(j, rows[j]) in heads
      {
        var j :| j in left;
        left := left - {j};
        if RunnableHead(rows, j, now) {
          heads := heads + [LocalJob(j, rows[j])];
        }
      }
    }

    /** Jobs that `expire_waiting` gives an `expired` event. */
    method ExpiredWaiting(now: int) returns (jobs: seq<LocalJob>)
      ensures Current(rows, jobs) && NoDuplicates(jobs)
      ensures forall j | j in rows :: WaitingPastDeadline(rows[j], now) <==> LocalJob(j, rows[j]) in jobs
    {
      jobs := [];
      var left := rows.Keys;
      while left != {}
        invariant left <= rows.Keys
        invariant Current(rows, jobs) && NoDuplicates(jobs)
        invariant forall i | 0 <= i < |jobs| :: jobs[i].id !in left
        invariant forall j | j in rows && j !in left :: WaitingPastDeadline(rows[j], now) <==>
          LocalJob(j, rows[j]) in jobs
      {
        var j :| j in left;
        left := left - {j};
        if WaitingPastDeadline(rows[j], now) {
          jobs := jobs + [LocalJob(j, rows[j])];
        }
      }
    }

    method DueReconciliations(now: int, limit: nat) returns (items: seq<LocalJob>)
      ensures EarliestDue(rows, items, now, PageSize(limit))
    {
      hide IsDue, NoLater, PageSize;
      items := [];
      var left := set j | j in rows && IsDue(rows[j], now);
      while left != {} && |items| < PageSize(limit)
        invariant Current(rows, items) && NoDuplicates(items) && |items| <= PageSize(limit)
        invariant forall j | j in left :: j in rows && IsDue(rows[j], now)
        invariant forall j | j in rows && IsDue(rows[j], now) :: j in left || LocalJob(j, rows[j]) in items
        invariant forall i | 0 <= i < |items| :: IsDue(items[i].row, now) && items[i].id !in left
        invariant forall i, k | 0 <= i < k < |items| :: NoLater(items[i].row, items[k].row)
        invariant forall i, j | 0 <= i < |items| && j in left :: NoLater(items[i].row, rows[j])
        decreases left
      {
        ghost var first := Earliest(rows, left, now);
        var j :| j in left && forall k | k in left :: NoLater(rows[j], rows[k]);
        left := left - {j};
        items := items + [LocalJob(j, rows[j])];
      }
    }
  }
}
