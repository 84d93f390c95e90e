/** What is stored for a job, told by what is on record for it: the evidence of its handoff
    and the reports of the spooler. */
module HandoffOutcomes {
  import opened Options
  import opened JobStates
  import opened HandoffProtocol
  import opened HandoffSafety
  import opened HandoffRuns

  // ---------------------------------------------------------------- recovery of an intent

  /** `row'` differs from `row` by one event, and in no fact about the job itself. */
  predicate Appends(row: Row, s: JobState, row': Row) {
    && row'.state == s && row'.events == row.events + [s]
    && row'.printer == row.printer && row'.order == row.order && row'.pdf == row.pdf && row'.cloud == row.cloud
    && row'.routed == row.routed && row'.expires == row.expires
  }

  /** What recovery stores for a spool intent. A reservation that is still held may have
      been used; otherwise the newest evidence decides. */
  predicate Restores(row: Row, route: Route, row': Row) {
    if route.reserved then
      Appends(row, DeliveryUncertain, row') && row' == row.(state := row'.state, events := row'.events)
    else
      match route.latest
      case Some(Crossed(Some(native), at)) =>
        && Appends(row, AcceptedBySpooler, row') && row'.nativeId == Some(native)
        && row'.recon.Some? && row'.recon.value.nextObserve == at + 2_000
        && row'.recon.value.deadline == at + 600_000 && row'.nextAttempt == row.nextAttempt
      case Some(Refused(at)) =>
        && Appends(row, FailedRetryable, row') && row'.nativeId == row.nativeId && row'.recon == row.recon
        && row'.nextAttempt == if row.cloud then row.nextAttempt else Some(at + 2_000)
      case None =>
        if !row.cloud then row' == row
        else Appends(row, DeliveryUncertain, row') && row' == row.(state := row'.state, events := row'.events)
      case Some(_) =>
        Appends(row, DeliveryUncertain, row') && row' == row.(state := row'.state, events := row'.events)
  }

  lemma ProjectRestores(c: Cell)
    requires Projects(c.row, c.route)
    ensures Restores(c.row, c.route, Projected(c).row) && Projected(c).row != c.row
  {
    assert |Projected(c).row.events| == |c.row.events| + 1;
  }

  lemma QuietIntentMoves(c: Cell, s: JobStep)
    requires c.view.Quiet? && c.row.state.SpoolIntent? && CellEnabled(c, s) && CellApply(c, s).row != c.row
    ensures s == Recover(Project) && Restores(c.row, c.route, CellApply(c, s).row)
  {
    if s == Recover(Project) { ProjectRestores(c); }
  }

  /** In every run, a spool intent that nobody executes any more is changed only by
      recovery, and to what its route calls for. */
  lemma IntentEndsAsRecorded(acts: seq<Action>, a: Action, j: JobId)
    requires Legal(acts) && Enabled(Run(acts), a) && j in Run(acts)
    requires Run(acts)[j].view.Quiet? && Run(acts)[j].row.state.SpoolIntent?
    ensures j in Apply(Run(acts), a)
    ensures Apply(Run(acts), a)[j].row != Run(acts)[j].row ==>
      && a == OnJob(j, Recover(Project))
      && Restores(Run(acts)[j].row, Run(acts)[j].route, Apply(Run(acts), a)[j].row)
  {
    hide Legal, Run, CellEnabled, CellApply, Restores, IsHead, IsDue;
    var w := Run(acts);
    if a.OnJob? && a.j == j && Apply(w, a)[j].row != w[j].row { QuietIntentMoves(w[j], a.step); }
  }

  // ---------------------------------------------------------------- and nothing else, ever

  /** The event that ends a local spool intent, if recovery has anything to go by. */
  function Verdict(route: Route): Option<JobState> {
    if route.reserved then Some(DeliveryUncertain)
    else
      match route.latest
      case None => None
      case Some(Crossed(Some(_), _)) => Some(AcceptedBySpooler)
      case Some(Refused(_)) => Some(FailedRetryable)
      case Some(_) => Some(DeliveryUncertain)
  }

  function AcceptedAs(route: Route): Option<string> {
    if !route.reserved && route.latest.Some? && route.latest.value.Crossed? then route.latest.value.native else None
  }

  /** The intent still stands with the same verdict, or the verdict was stored. */
  predicate Follows(c: Cell, row: Row, verdict: Option<JobState>, native: Option<string>) {
    || (c.row == row && c.view.Quiet? && Verdict(c.route) == verdict && AcceptedAs(c.route) == native)
    || (verdict.Some? && row.events + [verdict.value] <= c.row.events &&
        (verdict == Some(AcceptedBySpooler) ==> native.Some? && c.row.nativeId == native))
  }

  lemma StoreOpGrows(c: Cell, s: StoreOp)
    requires StoreOpEnabled(c, s)
    ensures c.row.events <= StoreOpApply(c, s).row.events && StoreOpApply(c, s).row.nativeId == c.row.nativeId
  {
  }

  lemma ExecGrows(c: Cell, s: ExecStep)
    requires RouteInv(c) && ExecEnabled(c, s)
    ensures c.row.events <= ExecApply(c, s).row.events
    ensures c.row.nativeId.Some? ==> ExecApply(c, s).row.nativeId == c.row.nativeId
  {
    hide CanTransition, MayReturn;
  }

  lemma RouteOpGrows(c: Cell, s: RouteOp)
    requires RouteInv(c) && RouteOpEnabled(c, s)
    ensures c.row.events <= RouteOpApply(c, s).row.events
    ensures c.row.nativeId.Some? ==> RouteOpApply(c, s).row.nativeId == c.row.nativeId
  {
    hide Shows, Quarantines, Discards;
  }

  lemma ReconGrows(c: Cell, s: ReconStep)
    requires ReconEnabled(c, s)
    ensures c.row.events <= ReconApply(c, s).row.events && ReconApply(c, s).row.nativeId == c.row.nativeId
  {
    hide CanTransition, PlanFor;
  }

  /** No step takes back an event, or the spooler's identifier. */
  lemma StepGrows(c: Cell, s: JobStep)
    requires RouteInv(c) && CellEnabled(c, s)
    ensures c.row.events <= CellApply(c, s).row.events
    ensures c.row.nativeId.Some? ==> CellApply(c, s).row.nativeId == c.row.nativeId
  {
    match s
    case Outside(op) => StoreOpGrows(c, op);
    case Recover(rt) => RouteOpGrows(c, rt);
    case Execute(ex) => ExecGrows(c, ex);
    case Reconcile(rc) => ReconGrows(c, rc);
    hide StoreOpApply, RouteOpApply, ExecApply, ReconApply, StoreOpEnabled, RouteOpEnabled, ExecEnabled, ReconEnabled,
      RouteInv;
  }

  /** Whatever happens to a local intent at rest leaves its verdict or stores it. */
  lemma IntentFollows(c: Cell, s: JobStep)
    requires CellInv(c) && c.view.Quiet? && c.row.state.SpoolIntent? && !c.row.cloud && CellEnabled(c, s)
    ensures Follows(CellApply(c, s), c.row, Verdict(c.route), AcceptedAs(c.route))
  {
    hide SubmitInv, TraceInv, CountInv, ScheduleInv;
  }

  lemma StepFollows(c: Cell, s: JobStep, row: Row, verdict: Option<JobState>, native: Option<string>)
    requires CellInv(c) && CellEnabled(c, s) && row.state.SpoolIntent? && !row.cloud && Follows(c, row, verdict, native)
    ensures Follows(CellApply(c, s), row, verdict, native)
  {
    assert RouteInv(c);
    StepGrows(c, s);
    if c.row == row && c.view.Quiet? && Verdict(c.route) == verdict && AcceptedAs(c.route) == native {
      IntentFollows(c, s);
    }
    hide CellInv, CellEnabled, CellApply, Verdict, AcceptedAs, RouteInv;
  }

  lemma ActionFollows(w: World, a: Action, j: JobId, row: Row, verdict: Option<JobState>, native: Option<string>)
    requires j in w && CellInv(w[j]) && Enabled(w, a) && row.state.SpoolIntent? && !row.cloud
    requires Follows(w[j], row, verdict, native)
    ensures j in Apply(w, a) && Follows(Apply(w, a)[j], row, verdict, native)
  {
    if a.OnJob? && a.j == j { StepFollows(w[j], a.step, row, verdict, native); }
    hide CellEnabled, CellApply, CellInv, IsDue, Verdict, AcceptedAs;
  }

  /** Over every continuation, a local intent at rest stays as it is or its next event is
      the one its route calls for; an accepted handoff is never lost. */
  lemma {:induction false} IntentKeepsItsVerdict(acts: seq<Action>, longer: seq<Action>, j: JobId)
    requires Legal(acts) && Legal(longer) && Extends(acts, longer) && j in Run(acts)
    requires Run(acts)[j].view.Quiet? && Run(acts)[j].row.state.SpoolIntent? && !Run(acts)[j].row.cloud
    ensures var c := Run(acts)[j];
      j in Run(longer) && Follows(Run(longer)[j], c.row, Verdict(c.route), AcceptedAs(c.route))
    decreases |longer|
  {
    if |longer| == |acts| {
      assert longer == acts;
    } else {
      var c, before := Run(acts)[j], longer[..|longer|-1];
      assert before[..|acts|] == acts;
      IntentKeepsItsVerdict(acts, before, j);
      RunsKeepInv(before);
      hide CellInv, PrinterInv, Enabled, Apply, Follows, Verdict, AcceptedAs;
      ActionFollows(Run(before), longer[|longer|-1], j, c.row, Verdict(c.route), AcceptedAs(c.route));
    }
  }

  // ---------------------------------------------------------------- reports of the spooler

  /** The reports that justify a stored state of a job the spooler has accepted. */
  predicate Justifies(r: Report, s: JobState) {
    match s
    case Spooling => r == Seen(NativeQueued)
    case Printing => r == Seen(NativePrinting)
    case Blocked => r == Seen(NativeBlocked)
    case CompletedReported => r == Seen(NativeCompleted)
    case FailedTerminal => r == Seen(NativeFailed)
    case Cancelled => r == Seen(NativeCancelled) || r == CancelAccepted
    case DeliveryUncertain => r in {Seen(NativeMissing), Seen(NativeUnknown), ObserveFailed, CancelFailed}
    case _ => false
  }

  predicate IsReport(a: Action, j: JobId, s: JobState) {
    a.OnJob? && a.j == j && a.step.Reconcile? && a.step.rc.Observe? && Justifies(a.step.rc.report, s)
  }

  predicate Reported(acts: seq<Action>, j: JobId, s: JobState) {
    exists i | 0 <= i < |acts| :: IsReport(acts[i], j, s)
  }

  /** The state of an accepted job that only a report explains. */
  predicate NeedsReport(row: Row) {
    row.nativeId.Some? && row.state != AcceptedBySpooler && row.state != CancelRequested
  }

  /** A state change is planned and not yet stored. */
  predicate HasPlan(view: View) {
    view.Settling? && !view.plan.Leave?
  }

  predicate ReportsInv(acts: seq<Action>, c: Cell, j: JobId) {
    && (NeedsReport(c.row) ==> Reported(acts, j, c.row.state))
    && (HasPlan(c.view) ==> Reported(acts, j, c.view.plan.to))
    && (c.view == Cancelling(false) ==> c.row.nativeId.None?)
  }

  lemma ReportedLater(acts: seq<Action>, a: Action, j: JobId, s: JobState)
    ensures Reported(acts, j, s) || IsReport(a, j, s) ==> Reported(acts + [a], j, s)
  {
    if Reported(acts, j, s) {
      var i :| 0 <= i < |acts| && IsReport(acts[i], j, s);
      assert (acts + [a])[i] == acts[i];
    } else {
      assert (acts + [a])[|acts|] == a;
    }
  }

  /** A step explains the state it stores by a report of its own, by the plan it carries
      out, or by what was stored before. */
  predicate Explains(c: Cell, s: JobStep, c': Cell) {
    && (NeedsReport(c'.row) ==>
          || (NeedsReport(c.row) && c'.row.state == c.row.state)
          || (HasPlan(c.view) && c'.row.state == c.view.plan.to))
    && (HasPlan(c'.view) ==>
          s.Reconcile? && s.rc.Observe? && Justifies(s.rc.report, c'.view.plan.to))
    && (c'.view == Cancelling(false) ==> c'.row.nativeId.None?)
  }

  lemma StoreOpExplains(c: Cell, s: StoreOp)
    requires CellInv(c) && StoreOpEnabled(c, s) && (c.view == Cancelling(false) ==> c.row.nativeId.None?)
    ensures Explains(c, Outside(s), StoreOpApply(c, s))
  {
    hide SubmitInv, TraceInv, CountInv, ScheduleInv;
  }

  lemma RouteOpExplains(c: Cell, s: RouteOp)
    requires CellInv(c) && RouteOpEnabled(c, s)
    ensures Explains(c, Recover(s), RouteOpApply(c, s))
  {
    hide SubmitInv, TraceInv, CountInv, ScheduleInv, ViewInv, Quarantines, Discards, Shows;
  }

  lemma ExecExplains(c: Cell, s: ExecStep)
    requires CellInv(c) && ExecEnabled(c, s)
    ensures Explains(c, Execute(s), ExecApply(c, s))
  {
    hide SubmitInv, TraceInv, CountInv, ScheduleInv, CanTransition, MayReturn;
  }

  lemma ReconExplains(c: Cell, s: ReconStep)
    requires CellInv(c) && ReconEnabled(c, s)
    ensures Explains(c, Reconcile(s), ReconApply(c, s))
  {
    hide SubmitInv, TraceInv, CountInv, CanTransition;
  }

  lemma StepExplains(c: Cell, s: JobStep)
    requires CellInv(c) && CellEnabled(c, s) && (c.view == Cancelling(false) ==> c.row.nativeId.None?)
    ensures Explains(c, s, CellApply(c, s))
  {
    match s
    case Outside(op) => StoreOpExplains(c, op);
    case Recover(rt) => RouteOpExplains(c, rt);
    case Execute(ex) => ExecExplains(c, ex);
    case Reconcile(rc) => ReconExplains(c, rc);
    hide StoreOpApply, RouteOpApply, ExecApply, ReconApply, StoreOpEnabled, RouteOpEnabled, ExecEnabled, ReconEnabled,
      CellInv, Explains;
  }

  lemma StepKeepsReports(acts: seq<Action>, c: Cell, j: JobId, s: JobStep)
    requires CellInv(c) && CellEnabled(c, s) && ReportsInv(acts, c, j)
    ensures ReportsInv(acts + [OnJob(j, s)], CellApply(c, s), j)
  {
    StepExplains(c, s);
    var c' := CellApply(c, s);
    ReportedLater(acts, OnJob(j, s), j, c'.row.state);
    if HasPlan(c'.view) { ReportedLater(acts, OnJob(j, s), j, c'.view.plan.to); }
    hide CellInv, CellEnabled, CellApply, Reported, Justifies;
  }

  lemma RestKeepsReports(acts: seq<Action>, w: World, a: Action, j: JobId)
    requires Enabled(w, a) && j in w && !(a.OnJob? && a.j == j) && ReportsInv(acts, w[j], j)
    ensures j in Apply(w, a) && ReportsInv(acts + [a], Apply(w, a)[j], j)
  {
    ReportedLater(acts, a, j, w[j].row.state);
    if HasPlan(w[j].view) { ReportedLater(acts, a, j, w[j].view.plan.to); }
    hide CellEnabled, CellApply, IsHead, IsDue, Reported;
  }

  lemma {:induction false} RunsAreReported(acts: seq<Action>, j: JobId)
    requires Legal(acts) && j in Run(acts)
    ensures ReportsInv(acts, Run(acts)[j], j)
  {
    var before, a := acts[..|acts|-1], acts[|acts|-1];
    assert acts == before + [a];
    hide CellInv, PrinterInv, CellEnabled, CellApply, ReportsInv, IsHead, IsDue;
    if j in Run(before) {
      RunsAreReported(before, j);
      if a.OnJob? && a.j == j {
        RunsKeepInv(before);
        StepKeepsReports(before, Run(before)[j], j, a.step);
      } else {
        RestKeepsReports(before, Run(before), a, j);
      }
    } else {
      NewNeedsNothing(acts, a, j);
    }
  }

  lemma NewNeedsNothing(acts: seq<Action>, a: Action, j: JobId)
    requires a.Accept? || a.OfferNew?
    ensures ReportsInv(acts, NewCell(a), j)
  {
  }

  /** Whatever is stored about an accepted job beyond its acceptance, the spooler has
      reported: completion as completion, failure as failure, cancellation as such. */
  lemma StoredAsReported(acts: seq<Action>, j: JobId)
    requires Legal(acts) && j in Run(acts) && Run(acts)[j].row.nativeId.Some?
    ensures var s := Run(acts)[j].row.state;
      s != AcceptedBySpooler && s != CancelRequested ==> Reported(acts, j, s)
  {
    hide Legal, Run, Reported;
    RunsAreReported(acts, j);
  }

  /** No job is ever completed without a report of its completion. */
  lemma CompletedWasObserved(acts: seq<Action>, j: JobId)
    requires Legal(acts) && j in Run(acts) && Run(acts)[j].row.state == CompletedReported
    ensures exists i, now | 0 <= i < |acts| :: acts[i] == OnJob(j, Reconcile(Observe(Seen(NativeCompleted), now)))
  {
    RunsKeepInv(acts);
    assert RouteInv(Run(acts)[j]);
    hide Legal, Run, CellInv, PrinterInv;
    StoredAsReported(acts, j);
    var i :| 0 <= i < |acts| && IsReport(acts[i], j, CompletedReported);
    assert acts[i] == OnJob(j, Reconcile(Observe(Seen(NativeCompleted), acts[i].step.rc.now)));
  }
}
