/** Theorems over every run of the handoff protocol. */
module HandoffRuns {
  import opened JobStates
  import opened HandoffProtocol
  import opened HandoffSafety

  // ---------------------------------------------------------------- printers

  predicate InBatch(view: View) {
    view.Head? || view.Exec?
  }

  predicate InReconciliation(view: View) {
    view.Due? || view.Settling? || view.Finishing?
  }

  predicate DistinctOrders(w: World) {
    forall j, k | j in w && k in w && j != k && w[j].row.printer == w[k].row.printer ::
      w[j].row.order != w[k].row.order
  }

  /** A job picked for execution has its printer to itself. */
  predicate AloneOnPrinter(w: World, j: JobId)
    requires j in w
  {
    forall k | k in w && k != j && w[k].row.printer == w[j].row.printer ::
      !HoldsPrinter(w[k].row.state) && !InBatch(w[k].view)
  }

  predicate BatchInv(w: World) {
    && (forall j | j in w && InBatch(w[j].view) :: AloneOnPrinter(w, j))
    && (forall j, k | j in w && k in w && InBatch(w[j].view) :: !InReconciliation(w[k].view))
  }

  predicate CellsInv(w: World) {
    forall j | j in w :: CellInv(w[j])
  }

  predicate WorldInv(w: World) {
    CellsInv(w) && PrinterInv(w)
  }

  lemma ActionKeepsCells(w: World, a: Action)
    requires CellsInv(w) && Enabled(w, a)
    ensures CellsInv(Apply(w, a))
  {
    forall j | j in Apply(w, a)
      ensures CellInv(Apply(w, a)[j])
    {
      match a
      case OnJob(k, s) =>
        if j == k { StepKeepsCell(w[j], s); }
      case Crash => CrashKeepsCell(w[j]);
      case Select(now) =>
        if IsHead(w, j, now) { PickedCellInv(w[j]); }
      case SelectDue(now, chosen) =>
        if j in chosen { DueCellInv(w[j], now); }
      case _ =>
        if j !in w { NewCellInv(a); }
    }
  }

  /** What a step of one job means for its printer: no step puts a job into the
      batch, and only a job in the batch or under reconciliation can start to hold
      its printer. */
  predicate PrinterFrame(c: Cell, c': Cell) {
    && c'.row.printer == c.row.printer && c'.row.order == c.row.order
    && (InBatch(c'.view) ==> InBatch(c.view))
    && (InReconciliation(c'.view) ==> InReconciliation(c.view))
    && (!InBatch(c.view) && !InReconciliation(c.view) && HoldsPrinter(c'.row.state) ==>
          HoldsPrinter(c.row.state))
  }

  lemma StoreOpPrinterFrame(c: Cell, s: StoreOp)
    requires StoreOpEnabled(c, s)
    ensures PrinterFrame(c, StoreOpApply(c, s))
  {
  }

  lemma ExecPrinterFrame(c: Cell, s: ExecStep)
    requires ExecEnabled(c, s)
    ensures PrinterFrame(c, ExecApply(c, s))
  {
    hide CanTransition, MayReturn;
  }

  lemma RouteOpPrinterFrame(c: Cell, s: RouteOp)
    requires RouteOpEnabled(c, s)
    ensures PrinterFrame(c, RouteOpApply(c, s))
  {
    hide Shows, Quarantines, Discards;
  }

  lemma ReconPrinterFrame(c: Cell, s: ReconStep)
    requires ReconEnabled(c, s)
    ensures PrinterFrame(c, ReconApply(c, s))
  {
    hide CanTransition, PlanFor;
  }

  lemma StepPrinterFrame(c: Cell, s: JobStep)
    requires CellEnabled(c, s)
    ensures PrinterFrame(c, CellApply(c, s))
  {
    match s
    case Outside(op) => StoreOpPrinterFrame(c, op);
    case Recover(rt) => RouteOpPrinterFrame(c, rt);
    case Execute(ex) => ExecPrinterFrame(c, ex);
    case Reconcile(rc) => ReconPrinterFrame(c, rc);
    hide StoreOpApply, RouteOpApply, ExecApply, ReconApply, StoreOpEnabled, RouteOpEnabled, ExecEnabled, ReconEnabled,
      PrinterFrame;
  }

  predicate PrinterInv(w: World) {
    DistinctOrders(w) && BatchInv(w)
  }

  lemma StepKeepsPrinters(w: World, j: JobId, s: JobStep)
    requires PrinterInv(w) && Enabled(w, OnJob(j, s))
    ensures PrinterInv(Apply(w, OnJob(j, s)))
  {
    StepPrinterFrame(w[j], s);
    var c' := CellApply(w[j], s);
    assert Apply(w, OnJob(j, s)) == w[j := c'];
  }

  lemma SelectKeepsPrinters(w: World, now: int)
    requires DistinctOrders(w) && Enabled(w, Select(now))
    ensures PrinterInv(Apply(w, Select(now)))
  {
    var w' := Apply(w, Select(now));
    forall j, k | j in w' && k in w' && InBatch(w'[j].view) && k != j && w[k].row.printer == w[j].row.printer
      ensures !HoldsPrinter(w'[k].row.state) && !InBatch(w'[k].view)
    {
      assert IsHead(w, j, now);
      assert !IsHead(w, k, now);
    }
  }

  lemma QuietJobKeepsPrinters(w: World, j: JobId, c: Cell)
    requires PrinterInv(w) && j !in w && FreshOrder(w, c.row.printer, c.row.order)
    requires c.view.Quiet? && !HoldsPrinter(c.row.state)
    ensures PrinterInv(w[j := c])
  {
    hide HoldsPrinter;
  }

  lemma CrashKeepsPrinters(w: World)
    requires PrinterInv(w)
    ensures PrinterInv(Apply(w, Crash))
  {
  }

  lemma SelectDueKeepsPrinters(w: World, now: int, chosen: set<JobId>)
    requires PrinterInv(w) && Enabled(w, SelectDue(now, chosen))
    ensures PrinterInv(Apply(w, SelectDue(now, chosen)))
  {
  }

  lemma ActionKeepsInv(w: World, a: Action)
    requires WorldInv(w) && Enabled(w, a)
    ensures WorldInv(Apply(w, a))
  {
    hide CellsInv, PrinterInv, Enabled, Apply;
    ActionKeepsCells(w, a);
    ActionKeepsPrinters(w, a);
  }

  lemma ActionKeepsPrinters(w: World, a: Action)
    requires PrinterInv(w) && Enabled(w, a)
    ensures PrinterInv(Apply(w, a))
  {
    assert DistinctOrders(w);
    hide PrinterInv, DistinctOrders, CellEnabled, CellApply, IsHead, IsDue, CrashCell;
    match a
    case OnJob(j, s) => StepKeepsPrinters(w, j, s);
    case Select(now) => SelectKeepsPrinters(w, now);
    case SelectDue(now, chosen) => SelectDueKeepsPrinters(w, now, chosen);
    case Crash => CrashKeepsPrinters(w);
    case _ => QuietJobKeepsPrinters(w, a.j, NewCell(a));
  }

  lemma {:induction false} RunsKeepInv(acts: seq<Action>)
    requires Legal(acts)
    ensures WorldInv(Run(acts))
  {
    if acts != [] {
      RunsKeepInv(acts[..|acts|-1]);
      ActionKeepsInv(Run(acts[..|acts|-1]), acts[|acts|-1]);
    }
  }

  // ---------------------------------------------------------------- main theorems

  lemma SubmitUnderIntent(c: Cell)
    requires CellInv(c) && ExecEnabled(c, SubmitStart)
    ensures c.row.state == SpoolIntent && InBatch(c.view)
  {
    hide ScheduleInv, SubmitInv, RouteInv, TraceInv, CountInv;
  }

  /** Every `submit` call happens while the job's durable state is `spool_intent`
      and while no other job of the same printer is on its way to the spooler. */
  lemma SubmitOnlyUnderIntent(acts: seq<Action>, j: JobId)
    requires Legal(acts) && Enabled(Run(acts), OnJob(j, Execute(SubmitStart)))
    ensures Run(acts)[j].row.state == SpoolIntent
    ensures forall k | k in Run(acts) && k != j && Run(acts)[k].row.printer == Run(acts)[j].row.printer ::
      !HoldsPrinter(Run(acts)[k].row.state)
  {
    hide Run, Legal, CellInv, ExecEnabled, HoldsPrinter;
    RunsKeepInv(acts);
    SubmitUnderIntent(Run(acts)[j]);
  }

  /** A `submit` call, an operator's or authority's release, a further offer. */
  predicate IsSubmit(s: JobStep) {
    s.Execute? && s.ex.SubmitStart?
  }

  predicate IsRelease(s: JobStep) {
    s.Recover? && s.rt.Release?
  }

  predicate IsOffer(s: JobStep) {
    s.Outside? && s.op.Offer?
  }

  function Steps(acts: seq<Action>, j: JobId): seq<JobStep> {
    if acts == [] then []
    else
      Steps(acts[..|acts| - 1], j) + StepOf(acts[|acts| - 1], j)
  }

  function Submits(steps: seq<JobStep>): nat {
    if steps == [] then 0 else Submits(steps[..|steps| - 1]) + if IsSubmit(steps[|steps| - 1]) then 1 else 0
  }

  function Releases(steps: seq<JobStep>): nat {
    if steps == [] then 0 else Releases(steps[..|steps| - 1]) + if IsRelease(steps[|steps| - 1]) then 1 else 0
  }

  function Offers(steps: seq<JobStep>): nat {
    if steps == [] then 0 else Offers(steps[..|steps| - 1]) + if IsOffer(steps[|steps| - 1]) then 1 else 0
  }

  /** The history fields of a cell count what the steps of its job did. */
  predicate Counts(c: Cell, steps: seq<JobStep>) {
    |c.hist.submits| == Submits(steps) && c.hist.releases == Releases(steps) && c.hist.offers <= 1 + Offers(steps)
  }

  /** What one step adds to the three counts. */
  predicate Adds(h: History, h': History, s: JobStep) {
    && |h'.submits| == |h.submits| + (if IsSubmit(s) then 1 else 0)
    && h'.releases == h.releases + (if IsRelease(s) then 1 else 0)
    && h'.offers <= h.offers + (if IsOffer(s) then 1 else 0)
  }

  lemma ExecAdds(c: Cell, s: ExecStep)
    requires ExecEnabled(c, s)
    ensures Adds(c.hist, ExecApply(c, s).hist, Execute(s))
  {
    hide CanTransition;
  }

  lemma StoreOpAdds(c: Cell, s: StoreOp)
    requires StoreOpEnabled(c, s)
    ensures Adds(c.hist, StoreOpApply(c, s).hist, Outside(s))
  {
  }

  lemma RouteOpAdds(c: Cell, s: RouteOp)
    requires RouteOpEnabled(c, s)
    ensures Adds(c.hist, RouteOpApply(c, s).hist, Recover(s))
  {
    hide Shows, Quarantines, Discards;
  }

  lemma ReconAdds(c: Cell, s: ReconStep)
    requires ReconEnabled(c, s)
    ensures Adds(c.hist, ReconApply(c, s).hist, Reconcile(s))
  {
    hide CanTransition, PlanFor;
  }

  lemma StepAdds(c: Cell, s: JobStep)
    requires CellEnabled(c, s)
    ensures Adds(c.hist, CellApply(c, s).hist, s)
  {
    match s
    case Outside(op) => StoreOpAdds(c, op);
    case Recover(rt) => RouteOpAdds(c, rt);
    case Execute(ex) => ExecAdds(c, ex);
    case Reconcile(rc) => ReconAdds(c, rc);
    hide StoreOpApply, RouteOpApply, ExecApply, ReconApply, StoreOpEnabled, RouteOpEnabled, ExecEnabled, ReconEnabled;
  }

  lemma StepCounted(c: Cell, s: JobStep, steps: seq<JobStep>)
    requires CellEnabled(c, s) && Counts(c, steps)
    ensures Counts(CellApply(c, s), steps + [s])
  {
    StepAdds(c, s);
    hide CellEnabled, CellApply;
    assert (steps + [s])[..|steps|] == steps;
  }

  /** Any other action leaves the counts alone, or makes a new job. */
  lemma RestCounted(w: World, a: Action, j: JobId, steps: seq<JobStep>)
    requires Enabled(w, a) && !(a.OnJob? && a.j == j) && j in Apply(w, a)
    requires if j in w then Counts(w[j], steps) else steps == []
    ensures Counts(Apply(w, a)[j], steps)
  {
    hide CellEnabled, CellApply, IsHead, IsDue;
  }

  function StepOf(a: Action, j: JobId): seq<JobStep> {
    if a.OnJob? && a.j == j then [a.step] else []
  }

  ghost predicate AllCounted(w: World, j: JobId, steps: seq<JobStep>) {
    if j in w then Counts(w[j], steps) else steps == []
  }

  lemma ActionCounted(w: World, a: Action, j: JobId, steps: seq<JobStep>)
    requires Enabled(w, a) && AllCounted(w, j, steps)
    ensures AllCounted(Apply(w, a), j, steps + StepOf(a, j))
  {
    hide CellEnabled, CellApply, Counts;
    if a.OnJob? && a.j == j {
      StepCounted(w[j], a.step, steps);
    } else {
      assert steps + [] == steps;
      if j in Apply(w, a) { RestCounted(w, a, j, steps); }
    }
  }

  lemma {:induction false} HistoryCounted(acts: seq<Action>, j: JobId)
    requires Legal(acts)
    ensures AllCounted(Run(acts), j, Steps(acts, j))
  {
    if acts != [] {
      var before, a := acts[..|acts| - 1], acts[|acts| - 1];
      HistoryCounted(before, j);
      hide AllCounted, Enabled, Apply;
      ActionCounted(Run(before), a, j, Steps(before, j));
    }
  }

  /** At most one submit of a local job reached, may have reached, or was cut off on
      its way to the spooler, beyond those an operator explicitly released; a cloud
      job is submitted at most once, plus once for every further offer. */
  lemma AtMostOneRiskySubmit(acts: seq<Action>, j: JobId)
    requires Legal(acts) && j in Run(acts)
    ensures |Run(acts)[j].hist.submits| == Submits(Steps(acts, j))
    ensures !Run(acts)[j].row.cloud ==> Risky(Run(acts)[j].hist.submits) <= 1 + Releases(Steps(acts, j))
    ensures Run(acts)[j].row.cloud ==> Submits(Steps(acts, j)) <= 1 + Offers(Steps(acts, j))
  {
    hide Run, Legal, ViewInv, ScheduleInv, RouteInv, TraceInv, CountInv, PrinterInv, Steps, Risky;
    RunsKeepInv(acts);
    HistoryCounted(acts, j);
  }

  /** At every write boundary a job the spooler owns can still be reconciled. */
  lemma SpoolerJobsAreScheduled(acts: seq<Action>, j: JobId)
    requires Legal(acts) && j in Run(acts) && InSpooler(Run(acts)[j].row.state)
    ensures Run(acts)[j].row.recon.Some? && Run(acts)[j].row.nativeId.Some?
  {
    hide Run, Legal, ViewInv, SubmitInv, RouteInv, TraceInv, CountInv, PrinterInv;
    RunsKeepInv(acts);
  }

  /** The branch for a schedule without a spooler identifier is never taken. */
  lemma NoOrphanSchedules(acts: seq<Action>, j: JobId)
    requires Legal(acts) && j in Run(acts)
    ensures !Enabled(Run(acts), OnJob(j, Reconcile(Orphan)))
  {
    hide Run, Legal, CellInv, PrinterInv, ReconEnabled;
    RunsKeepInv(acts);
    NoOrphanCell(Run(acts)[j]);
  }

  /** `retries` and `last` are the attempts behind a job's events. */
  ghost predicate AttemptsOf(row: Row, retries: seq<seq<JobState>>, last: seq<JobState>) {
    && row.events == Flat(retries) + last
    && AttemptTrace(last, row.state, row.pdf, row.nativeId.Some?)
    && (forall i | 0 <= i < |retries| :: RetryTrace(retries[i], row.pdf))
  }

  lemma NoOrphanCell(c: Cell)
    requires CellInv(c)
    ensures !ReconEnabled(c, Orphan)
  {
    hide SubmitInv, RouteInv, TraceInv, CountInv;
  }

  /** A job's events are whole attempts that failed safely or were released, and one last
      attempt. There are exactly as many released attempts as releases, and a cloud job
      has no more further attempts than further offers. */
  lemma EventsFollowTheAttempts(acts: seq<Action>, j: JobId) returns (retries: seq<seq<JobState>>, last: seq<JobState>)
    requires Legal(acts) && j in Run(acts)
    ensures AttemptsOf(Run(acts)[j].row, retries, last)
    ensures ReleasedIn(retries, Run(acts)[j].row.pdf) + ReleasedOnce(last, Run(acts)[j].row.pdf) ==
      Releases(Steps(acts, j))
    ensures Run(acts)[j].row.cloud ==> |retries| <= Offers(Steps(acts, j))
  {
    hide Run, Legal, PrinterInv, ViewInv, ScheduleInv, SubmitInv, RouteInv, AttemptTrace, ReleasedIn, ReleasedOnce,
      Steps;
    RunsKeepInv(acts);
    HistoryCounted(acts, j);
    retries, last := Run(acts)[j].hist.done, Run(acts)[j].hist.cur;
  }

  /** The `from` state the engine passes to `transition` is the stored state. */
  lemma TransitionsStartFromStoredState(acts: seq<Action>, j: JobId, s: JobStep)
    requires Legal(acts) && Enabled(Run(acts), OnJob(j, s))
    requires (s.Execute? && !s.ex.Begin?) || (s.Reconcile? && !s.rc.Finish?)
    ensures Run(acts)[j].view.snap == Run(acts)[j].row.state
  {
    hide Run, Legal, PrinterInv, ScheduleInv, SubmitInv, RouteInv, TraceInv, CountInv, CanTransition, MayReturn;
    RunsKeepInv(acts);
  }

  /** Without a cancel request at most 299 attempts fall before the deadline, and a
      job that stays inconclusive settles at the first later attempt that is not
      itself cut off: it is never unsettled after 300 uncut attempts. */
  lemma AttemptBudget(acts: seq<Action>, j: JobId)
    requires Legal(acts) && j in Run(acts)
    ensures var c := Run(acts)[j];
      && (!c.hist.cancelAsked ==> c.hist.early <= 299)
      && (InSpooler(c.row.state) && c.hist.inconclusive && c.view.Quiet? ==> c.hist.tries <= 299 + c.hist.cuts)
  {
    hide Run, Legal, SubmitInv, RouteInv, TraceInv, CountInv, PrinterInv, ViewInv;
    RunsKeepInv(acts);
  }

  /** An inconclusive attempt at or after the deadline asks for `delivery_uncertain`.
      The write goes through exactly when the job is not `blocked`: the transition
      table has no edge from `blocked` to `delivery_uncertain`. */
  lemma LateAttemptSettlesUnlessBlocked(acts: seq<Action>, j: JobId, r: Report, now: int)
    requires Legal(acts) && Enabled(Run(acts), OnJob(j, Reconcile(Observe(r, now))))
    requires Inconclusive(r) && now >= Run(acts)[j].row.recon.value.deadline
    ensures var w' := Apply(Run(acts), OnJob(j, Reconcile(Observe(r, now))));
      && (Enabled(w', OnJob(j, Reconcile(Advance))) <==> Run(acts)[j].row.state != Blocked)
      && (Run(acts)[j].row.state != Blocked ==>
            Apply(w', OnJob(j, Reconcile(Advance)))[j].row.state == DeliveryUncertain)
  {
    hide Run, Legal, CellInv, PrinterInv, ReconEnabled, ReconApply;
    RunsKeepInv(acts);
    LateCell(Run(acts)[j], r, now);
  }

  lemma LateCell(c: Cell, r: Report, now: int)
    requires CellInv(c) && ReconEnabled(c, Observe(r, now)) && Inconclusive(r) && now >= c.row.recon.value.deadline
    ensures var c' := ReconApply(c, Observe(r, now));
      && (ReconEnabled(c', Advance) <==> c.row.state != Blocked)
      && (c.row.state != Blocked ==> ReconApply(c', Advance).row.state == DeliveryUncertain)
  {
    hide ScheduleInv, SubmitInv, RouteInv, TraceInv, CountInv, PlanFor, CanTransition;
    LateReport(c, r, now);
  }

  /** In every run, `blocked` followed by an inconclusive late report is the only
      state change the engine plans and the table refuses. */
  lemma OnlyBlockedAgeingIsRefused(acts: seq<Action>, j: JobId)
    requires Legal(acts) && j in Run(acts) && Run(acts)[j].view.Settling?
    ensures var c := Run(acts)[j];
      !Enabled(Run(acts), OnJob(j, Reconcile(Advance))) <==>
        c.row.state == Blocked && c.view.plan == Settle(DeliveryUncertain)
  {
    RunsKeepInv(acts);
    assert CellInv(Run(acts)[j]);
    RefusedAdvance(Run(acts)[j]);
    hide Run, Legal, CellInv, ReconEnabled;
  }

  lemma RefusedAdvance(c: Cell)
    requires ViewInv(c) && c.view.Settling?
    ensures !ReconEnabled(c, Advance) <==> c.row.state == Blocked && c.view.plan == Settle(DeliveryUncertain)
  {
  }

  /** Once the spooler has accepted a job, nothing submits it again: it cannot be executed,
      and its evidence cannot be resolved or released. */
  lemma AcceptedJobsAreDone(acts: seq<Action>, j: JobId, accepted: bool, next: int)
    requires Legal(acts) && j in Run(acts) && Run(acts)[j].row.nativeId.Some?
    ensures !Enabled(Run(acts), OnJob(j, Execute(SubmitStart)))
    ensures !Enabled(Run(acts), OnJob(j, Recover(Resolve(accepted)))) &&
      !Enabled(Run(acts), OnJob(j, Recover(Release(next))))
  {
    hide Run, Legal, CellInv, PrinterInv, ExecEnabled, RouteOpEnabled;
    RunsKeepInv(acts);
    AcceptedCellIsDone(Run(acts)[j], accepted, next);
  }

  lemma AcceptedCellIsDone(c: Cell, accepted: bool, next: int)
    requires CellInv(c) && c.row.nativeId.Some?
    ensures !ExecEnabled(c, SubmitStart) && !RouteOpEnabled(c, Resolve(accepted)) && !RouteOpEnabled(c, Release(next))
  {
    hide ScheduleInv, TraceInv, SubmitInv, CountInv;
  }

  // ---------------------------------------------------------------- stranded jobs

  /** Recovery has nothing to go by: a local intent whose route was never reserved and
      has no evidence, a cloud intent without a proof. */
  predicate Unprovable(row: Row, route: Route) {
    if row.cloud then !route.proof else !route.reserved && route.latest.None?
  }

  /** A job no enabled step can move: nothing repairs an attempt cut off before the spool
      intent or before its reservation, or a cancellation cut off between its two writes. */
  predicate Stranded(c: Cell) {
    c.view.Quiet? &&
    (c.row.state == Preparing || c.row.state == Rendering ||
     (c.row.state == SpoolIntent && Unprovable(c.row, c.route)) ||
     (c.row.state == CancelRequested && c.row.recon.None?))
  }

  lemma StrandedByOneStep(c: Cell, s: JobStep)
    requires Stranded(c) && CellEnabled(c, s)
    ensures Stranded(CellApply(c, s)) && CellApply(c, s).row == c.row
  {
    match s
    case Outside(op) =>
    case Recover(rt) =>
    case Execute(ex) =>
    case Reconcile(rc) =>
  }

  lemma StrandedByOneAction(w: World, a: Action, j: JobId)
    requires j in w && Stranded(w[j]) && Enabled(w, a)
    ensures j in Apply(w, a) && Stranded(Apply(w, a)[j]) && Apply(w, a)[j].row == w[j].row
  {
    if a.OnJob? && a.j == j {
      StrandedByOneStep(w[j], a.step);
    }
    hide CellEnabled, CellApply;
  }

  predicate Extends(acts: seq<Action>, longer: seq<Action>) {
    |acts| <= |longer| && longer[..|acts|] == acts
  }

  /** Once stranded, a job keeps its row in every continuation of the run. */
  lemma {:induction false} StrandedForever(acts: seq<Action>, longer: seq<Action>, j: JobId)
    requires Legal(acts) && Legal(longer) && Extends(acts, longer)
    requires j in Run(acts) && Stranded(Run(acts)[j])
    ensures j in Run(longer) && Run(longer)[j].row == Run(acts)[j].row && Stranded(Run(longer)[j])
    decreases |longer|
  {
    if |longer| == |acts| {
      assert longer == acts;
    } else {
      var init := longer[..|longer|-1];
      assert init[..|acts|] == acts;
      StrandedForever(acts, init, j);
      StrandedByOneAction(Run(init), longer[|longer|-1], j);
    }
  }

  /** A job stranded while it holds the printer keeps every other job of that
      printer from ever being picked again. */
  lemma StrandedPrinterNeverServed(acts: seq<Action>, longer: seq<Action>, j: JobId, k: JobId, now: int)
    requires Legal(acts) && Legal(longer) && Extends(acts, longer)
    requires j in Run(acts) && Stranded(Run(acts)[j]) && Run(acts)[j].row.state != CancelRequested
    requires k in Run(longer) && Run(longer)[k].row.printer == Run(acts)[j].row.printer
    ensures !IsHead(Run(longer), k, now)
  {
    StrandedForever(acts, longer, j);
  }

  /** In no continuation of the run does the row of `j` change. */
  ghost predicate StaysForever(acts: seq<Action>, j: JobId)
    requires Legal(acts) && j in Run(acts)
  {
    forall longer | Legal(longer) && Extends(acts, longer) ::
      j in Run(longer) && Run(longer)[j].row == Run(acts)[j].row
  }

  /** A job at rest that is not final stays as it is for ever if and only if it is
      stranded. */
  lemma StaysForeverIffStranded(acts: seq<Action>, j: JobId)
    requires Legal(acts) && j in Run(acts) && Run(acts)[j].view.Quiet? && !IsTerminal(Run(acts)[j].row.state)
    ensures StaysForever(acts, j) <==> Stranded(Run(acts)[j])
  {
    if Stranded(Run(acts)[j]) {
      forall longer | Legal(longer) && Extends(acts, longer)
        ensures j in Run(longer) && Run(longer)[j].row == Run(acts)[j].row
      {
        StrandedForever(acts, longer, j);
      }
    } else {
      var longer := Moved(acts, j);
    }
  }

  /** The step that moves a job at rest, if it is not waiting to be observed. */
  function NextMove(c: Cell): JobStep {
    match c.row.state
    case CloudAcceptPending => Outside(Activate)
    case QueuedLocal => Outside(CancelQueued)
    case FailedRetryable => Outside(CancelQueued)
    case SpoolIntent => Recover(Project)
    case _ => Outside(CancelNative)
  }

  lemma MovesAtOnce(c: Cell)
    requires CellInv(c) && c.view.Quiet? && !IsTerminal(c.row.state) && !Stranded(c) && !c.row.state.CancelRequested?
    requires c.row.state.SpoolIntent? ==> Adopted(c.route)
    ensures CellEnabled(c, NextMove(c)) && CellApply(c, NextMove(c)).row != c.row
  {
    hide ScheduleInv, SubmitInv, CountInv;
  }

  lemma MovesAfterQuarantine(c: Cell)
    requires CellInv(c) && c.view.Quiet? && c.row.state.SpoolIntent? && !Stranded(c) && !Adopted(c.route)
    ensures CellEnabled(c, Recover(Quarantine(0)))
    ensures
      var c' := CellApply(c, Recover(Quarantine(0)));
      c'.row == c.row && c'.view.Quiet? && Adopted(c'.route) && !Stranded(c')
  {
    hide ScheduleInv, SubmitInv, CountInv, TraceInv;
  }

  lemma MovesWhenObserved(c: Cell)
    requires CellInv(c) && c.view.Quiet? && c.row.state.CancelRequested? && !Stranded(c)
    ensures c.row.recon.Some? && IsDue(c.row, c.row.recon.value.nextObserve)
    ensures var now := c.row.recon.value.nextObserve;
      var due := c.(view := DueView(c.row, now));
      CellEnabled(due, Reconcile(Observe(CancelFailed, now))) &&
        CellApply(due, Reconcile(Observe(CancelFailed, now))).row != c.row
  {
    hide SubmitInv, CountInv, TraceInv;
  }

  lemma Moved(acts: seq<Action>, j: JobId) returns (longer: seq<Action>)
    requires Legal(acts) && j in Run(acts) && Run(acts)[j].view.Quiet? && !IsTerminal(Run(acts)[j].row.state)
    requires !Stranded(Run(acts)[j])
    ensures Legal(longer) && Extends(acts, longer) && j in Run(longer) && Run(longer)[j].row != Run(acts)[j].row
  {
    RunsKeepInv(acts);
    var c := Run(acts)[j];
    hide CellInv, Stranded, CellEnabled, CellApply, Legal, Run, IsTerminal;
    longer := acts;
    if c.row.state.CancelRequested? {
      longer := MovedByObservation(acts, j);
    } else {
      if c.row.state.SpoolIntent? && !Adopted(c.route) {
        MovesAfterQuarantine(c);
        longer := Longer(acts, longer, OnJob(j, Recover(Quarantine(0))));
        RunsKeepInv(longer);
      }
      MovesAtOnce(Run(longer)[j]);
      longer := Longer(acts, longer, OnJob(j, NextMove(Run(longer)[j])));
    }
  }

  lemma MovedByObservation(acts: seq<Action>, j: JobId) returns (longer: seq<Action>)
    requires Legal(acts) && j in Run(acts) && Run(acts)[j].view.Quiet? && CellInv(Run(acts)[j])
    requires Run(acts)[j].row.state.CancelRequested? && !Stranded(Run(acts)[j])
    ensures Legal(longer) && Extends(acts, longer) && j in Run(longer) && Run(longer)[j].row != Run(acts)[j].row
  {
    var c := Run(acts)[j];
    hide CellInv, Stranded, CellEnabled, CellApply, Legal, Run;
    MovesWhenObserved(c);
    var now := c.row.recon.value.nextObserve;
    longer := Longer(acts, acts, Crash);
    longer := Longer(acts, longer, SelectDue(now, {j}));
    longer := Longer(acts, longer, OnJob(j, Reconcile(Observe(CancelFailed, now))));
  }

  lemma Longer(acts: seq<Action>, longer: seq<Action>, a: Action) returns (next: seq<Action>)
    requires Legal(longer) && Extends(acts, longer) && Enabled(Run(longer), a)
    ensures Legal(next) && Extends(acts, next) && Run(next) == Apply(Run(longer), a)
  {
    Then(longer, a);
    next := longer + [a];
    assert next[..|acts|] == longer[..|acts|];
  }

  lemma Then(acts: seq<Action>, a: Action)
    requires Legal(acts) && Enabled(Run(acts), a)
    ensures Legal(acts + [a]) && Run(acts + [a]) == Apply(Run(acts), a)
  {
    assert (acts + [a])[..|acts|] == acts;
  }
}
