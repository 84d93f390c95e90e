/** The order in which the jobs of a printer are picked, told by the order in which they
    were accepted. */
module HandoffQueue {
  import opened JobStates
  import opened HandoffProtocol
  import opened HandoffRuns

  predicate Registers(a: Action, j: JobId) {
    (a.Accept? || a.OfferNew?) && a.j == j
  }

  /** `k` was accepted or offered before `j`. */
  predicate CameBefore(acts: seq<Action>, k: JobId, j: JobId) {
    exists p, q | 0 <= p < q < |acts| :: Registers(acts[p], k) && Registers(acts[q], j)
  }

  // ---------------------------------------------------------------- positions and orders

  /** No action takes a job away or changes its printer or its place. */
  lemma ActionKeepsPlaces(w: World, a: Action, j: JobId)
    requires Enabled(w, a) && j in w
    ensures j in Apply(w, a)
    ensures Apply(w, a)[j].row.printer == w[j].row.printer && Apply(w, a)[j].row.order == w[j].row.order
  {
    if a.OnJob? && a.j == j { StepPrinterFrame(w[j], a.step); }
    hide CellEnabled, CellApply, IsHead, IsDue;
  }

  lemma {:induction false} RegisteredStays(acts: seq<Action>, p: nat, j: JobId)
    requires Legal(acts) && p < |acts| && Registers(acts[p], j)
    ensures j in Run(acts)
    decreases |acts|
  {
    if p < |acts| - 1 {
      RegisteredStays(acts[..|acts| - 1], p, j);
      ActionKeepsPlaces(Run(acts[..|acts| - 1]), acts[|acts| - 1], j);
    }
  }

  lemma {:induction false} RegisteredAt(acts: seq<Action>, j: JobId) returns (p: nat)
    requires Legal(acts) && j in Run(acts)
    ensures p < |acts| && Registers(acts[p], j)
  {
    var before, a := acts[..|acts| - 1], acts[|acts| - 1];
    if j in Run(before) {
      p := RegisteredAt(before, j);
    } else {
      assert Registers(a, j) by { hide IsHead, IsDue, CellApply, CellEnabled; }
      p := |acts| - 1;
    }
  }

  /** Of two jobs of a printer the one that came first has the lower place. */
  lemma {:induction false} FirstIsLower(acts: seq<Action>, p: nat, q: nat, k: JobId, j: JobId)
    requires Legal(acts) && p < q < |acts| && Registers(acts[p], k) && Registers(acts[q], j)
    requires k in Run(acts) && j in Run(acts) && Run(acts)[k].row.printer == Run(acts)[j].row.printer
    ensures k != j && Run(acts)[k].row.order < Run(acts)[j].row.order
    decreases |acts|
  {
    var before, a := acts[..|acts| - 1], acts[|acts| - 1];
    RegisteredStays(before, p, k);
    ActionKeepsPlaces(Run(before), a, k);
    hide CellEnabled, CellApply, IsHead, IsDue;
    if q < |acts| - 1 {
      RegisteredStays(before, q, j);
      ActionKeepsPlaces(Run(before), a, j);
      FirstIsLower(before, p, q, k, j);
    }
  }

  lemma BeforeIsLower(acts: seq<Action>, k: JobId, j: JobId)
    requires Legal(acts) && k in Run(acts) && j in Run(acts) && k != j
    requires Run(acts)[k].row.printer == Run(acts)[j].row.printer
    ensures CameBefore(acts, k, j) <==> Run(acts)[k].row.order < Run(acts)[j].row.order
  {
    hide Legal, Run;
    var p := RegisteredAt(acts, k);
    var q := RegisteredAt(acts, j);
    if p < q { FirstIsLower(acts, p, q, k, j); } else { FirstIsLower(acts, q, p, j, k); }
    if CameBefore(acts, k, j) {
      var r, s :| 0 <= r < s < |acts| && Registers(acts[r], k) && Registers(acts[s], j);
      FirstIsLower(acts, r, s, k, j);
    }
  }

  // ---------------------------------------------------------------- who is picked

  /** The job waits for its printer. */
  predicate InQueue(row: Row) {
    || (row.state == QueuedLocal && (!row.cloud || row.routed))
    || (row.state == FailedRetryable && !row.cloud)
  }

  /** The job is being prepared or is with the spooler, and not blocked there. */
  predicate OnThePrinter(row: Row) {
    row.state in {Preparing, Rendering, SpoolIntent, AcceptedBySpooler, Spooling, Printing}
  }

  /** First come, first served: in every run a job is picked if and only if it waits, may be
      tried now and has not expired, no job is on its printer, and no job that came before
      it waits for the same printer. */
  lemma PickedIffFirst(acts: seq<Action>, now: int, j: JobId)
    requires Legal(acts) && Enabled(Run(acts), Select(now)) && j in Run(acts)
    ensures Apply(Run(acts), Select(now))[j].view.Head? <==>
      var w, row := Run(acts), Run(acts)[j].row;
      && InQueue(row) && (row.nextAttempt.Some? ==> row.nextAttempt.value <= now)
      && (row.expires.Some? ==> row.expires.value > now)
      && (forall k | k in w && w[k].row.printer == row.printer :: !OnThePrinter(w[k].row))
      && (forall k | k in w && w[k].row.printer == row.printer && CameBefore(acts, k, j) :: !InQueue(w[k].row))
  {
    hide Legal, Run, CameBefore;
    var w := Run(acts);
    forall k | k in w && w[k].row.printer == w[j].row.printer
      ensures HoldsPrinter(w[k].row.state) <==> OnThePrinter(w[k].row)
      ensures Waiting(w[k].row) <==> InQueue(w[k].row)
      ensures k != j ==> (CameBefore(acts, k, j) <==> w[k].row.order < w[j].row.order)
    {
      if k != j { BeforeIsLower(acts, k, j); }
    }
    NotBeforeItself(acts, j);
    assert IsHead(w, j, now) <==> Apply(w, Select(now))[j].view.Head?;
  }

  lemma NotBeforeItself(acts: seq<Action>, j: JobId)
    requires Legal(acts) && j in Run(acts)
    ensures !CameBefore(acts, j, j)
  {
    if CameBefore(acts, j, j) {
      var r, s :| 0 <= r < s < |acts| && Registers(acts[r], j) && Registers(acts[s], j);
      FirstIsLower(acts, r, s, j, j);
    }
  }
}
