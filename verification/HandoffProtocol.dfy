/** The spooler-handoff protocol as a transition system.

    A world maps each job to a cell: its durable row, the coordinator's durable route
    entry, the engine's volatile view of the job, and a history that no code reads.
    Every action is one durable write, one read or one executor call, so a crash may
    fall between any two of them. */
module HandoffProtocol {
  import opened Options
  import opened JobStates

  type JobId = string

  const RECONCILIATION_INTERVAL_MS := 2_000
  const UNCERTAINTY_AFTER_MS := 600_000
  const LOCAL_RETRY_DELAY_MS := 2_000

  // ---------------------------------------------------------------- durable rows

  datatype Schedule = Schedule(nextObserve: int, deadline: int, attempts: nat, cancelRequested: bool)

  datatype Row = Row(
    printer: string, order: nat, pdf: bool, cloud: bool, routed: bool,
    state: JobState, expires: Option<int>, nextAttempt: Option<int>,
    nativeId: Option<string>, events: seq<JobState>, recon: Option<Schedule>)

  function Logged(row: Row, s: JobState): Row {
    row.(state := s, events := row.events + [s])
  }

  // ---------------------------------------------------------------- durable routes

  /** What the handoff journal says about an attempt, and when it was observed. */
  datatype Evidence = Crossed(native: Option<string>, at: int) | Refused(at: int) | Unclear(at: int)

  /** The coordinator's file and the proof tables, for one job: its route is reserved,
      its newest evidence, a proof of the cloud's reservation, and whether an operator
      confirmed an unclear handoff. */
  datatype Route = Route(reserved: bool, latest: Option<Evidence>, proof: bool, confirmed: bool)

  const NO_ROUTE := Route(false, None, false, false)

  /** Evidence that forbids another reservation. */
  predicate Barred(route: Route) {
    route.latest.Some? && !route.latest.value.Refused?
  }

  predicate IsUnclear(route: Route) {
    route.latest.Some? && route.latest.value.Unclear?
  }

  predicate IsRefused(route: Route) {
    route.latest.Some? && route.latest.value.Refused?
  }

  /** No reservation is without its own evidence; an unclear handoff keeps its reservation. */
  predicate Adopted(route: Route) {
    route.reserved ==> IsUnclear(route)
  }

  // ---------------------------------------------------------------- volatile view

  datatype Outcome = Accepted(native: string) | Failed(retryable: bool, handoffMayHaveSucceeded: bool)

  predicate SafeFailure(o: Outcome) {
    o.Failed? && !o.handoffMayHaveSucceeded
  }

  /** Where `execute_job` stands for one job. */
  datatype Point =
    | Starting | Validating | Ready | Intending
    | Submitting | Reserved | Recorded(outcome: Outcome) | Returned(outcome: Outcome)

  datatype NativeState =
    NativeQueued | NativePrinting | NativeBlocked | NativeCompleted
    | NativeFailed | NativeCancelled | NativeMissing | NativeUnknown

  /** What one reconciliation attempt learned from the executor. */
  datatype Report = Seen(native: NativeState) | ObserveFailed | CancelAccepted | CancelFailed

  predicate Inconclusive(r: Report) {
    r in {Seen(NativeMissing), Seen(NativeUnknown), ObserveFailed}
  }

  predicate FromCancel(r: Report) {
    r.CancelAccepted? || r.CancelFailed?
  }

  datatype Plan = Leave | Move(to: JobState) | Settle(to: JobState)

  /** The state change a report asks for, given the state the engine read. */
  function PlanFor(snap: JobState, r: Report, late: bool): Plan {
    match r
    case Seen(NativeQueued) => if (snap.AcceptedBySpooler? || snap.Blocked?) then Move(Spooling) else Leave
    case Seen(NativePrinting) =>
      if (snap.AcceptedBySpooler? || snap.Spooling? || snap.Blocked?) then Move(Printing) else Leave
    case Seen(NativeBlocked) => if snap == Blocked then Leave else Move(Blocked)
    case Seen(NativeCompleted) => Settle(CompletedReported)
    case Seen(NativeFailed) => Settle(FailedTerminal)
    case Seen(NativeCancelled) => Settle(Cancelled)
    case CancelAccepted => Settle(Cancelled)
    case _ => if late then Settle(DeliveryUncertain) else Leave
  }

  datatype View =
    | Quiet
    | Head(snap: JobState)
    | Exec(snap: JobState, point: Point)
    | Due(snap: JobState, deadline: int, cancelFlag: bool, now: int)
    | Settling(snap: JobState, plan: Plan)
    | Finishing
    | Cancelling(native: bool)

  // ---------------------------------------------------------------- history

  /** The fate of one `submit` call. Before the route is reserved the spooler cannot have
      been reached, and a crash leaves `Called`; after that it leaves `InFlight`. */
  datatype Submit = Called | InFlight | SafelyFailed | MayHaveHandedOff | HandedOff

  /** `base` is the number of submits before the current attempt. */
  datatype History = History(
    done: seq<seq<JobState>>, cur: seq<JobState>,
    submits: seq<Submit>, base: nat, releases: nat, offers: nat,
    acceptedAt: int, tries: nat, early: nat, cuts: nat, cancelAsked: bool, inconclusive: bool)

  function Noted(h: History, s: JobState): History {
    if s == QueuedLocal
    then h.(done := if h.cur == [] then h.done else h.done + [h.cur], cur := [s], base := |h.submits|)
    else h.(cur := h.cur + [s])
  }

  function FateOf(o: Outcome): Submit {
    match o
    case Accepted(_) => HandedOff
    case Failed(_, may) => if may then MayHaveHandedOff else SafelyFailed
  }

  predicate IsRisky(s: Submit) {
    !s.Called? && !s.SafelyFailed?
  }

  /** Submits whose native handoff succeeded, may have succeeded, or was cut off. */
  function Risky(s: seq<Submit>): nat {
    if s == [] then 0
    else Risky(s[..|s|-1]) + (if IsRisky(s[|s|-1]) then 1 else 0)
  }

  // ---------------------------------------------------------------- one job's steps

  datatype Cell = Cell(row: Row, route: Route, hist: History, view: View)

  /** Store operations outside the engine. */
  datatype StoreOp =
    | Expire(now: int)
    | CancelQueued | CancelQueuedDone
    | CancelNative | CancelNativeFlag(now: int)
    | Offer | Activate | Abandon

  /** `Quarantine`, `Project`, `Compact` and `Discard` are the passes of route recovery, at
      every start and, for local jobs, after every round of the scheduler; `Resolve` and
      then `Release` or `Confirm` are an operator's or authority's decision. */
  datatype RouteOp =
    | Quarantine(now: int) | Project | Compact | Discard(now: int)
    | Resolve(accepted: bool) | Release(next: int) | Confirm

  /** Writes and calls of `execute_job`, and of `submit` inside it. */
  datatype ExecStep =
    | Begin | Requeue | Prepare | Reject | Validated | Render | Intend
    | SubmitStart | Reserve | Record(native: Outcome, at: int) | SubmitReturn(outcome: Outcome)
    | RecordAcceptance(now: int) | RecordLocalRetry(now: int) | RecordFailure

  /** Writes and calls of `reconcile_item`. */
  datatype ReconStep = Observe(report: Report, now: int) | Orphan | Advance | Finish

  datatype JobStep = Outside(op: StoreOp) | Recover(rt: RouteOp) | Execute(ex: ExecStep) | Reconcile(rc: ReconStep)

  function WroteRow(c: Cell, s: JobState, view: View): Cell {
    Cell(Logged(c.row, s), c.route, Noted(c.hist, s), view)
  }

  /** `record_native_acceptance`: a schedule left over from an earlier handoff
      keeps its attempt count and cancel flag. */
  function AcceptanceSchedule(recon: Option<Schedule>, now: int): Schedule {
    match recon
    case None => Schedule(now + RECONCILIATION_INTERVAL_MS, now + UNCERTAINTY_AFTER_MS, 0, false)
    case Some(r) => r.(nextObserve := now + RECONCILIATION_INTERVAL_MS, deadline := now + UNCERTAINTY_AFTER_MS)
  }

  function WroteAcceptance(c: Cell, native: string, now: int): Cell {
    WroteRow(
      c.(row := c.row.(nativeId := Some(native), recon := Some(AcceptanceSchedule(c.row.recon, now))),
         hist := c.hist.(acceptedAt := now, tries := 0, early := 0, cuts := 0, cancelAsked := false,
           inconclusive := true)),
      AcceptedBySpooler, Quiet)
  }

  function WroteRetry(c: Cell, next: int): Cell {
    WroteRow(c.(row := c.row.(nextAttempt := Some(next))), FailedRetryable, Quiet)
  }

  // ------------------------------------------------ store operations outside the engine

  predicate StoreOpEnabled(c: Cell, s: StoreOp) {
    var row, view := c.row, c.view;
    match s
    case Expire(now) =>
      && view.Quiet? && (row.state.QueuedLocal? || row.state.FailedRetryable?)
      && row.expires.Some? && row.expires.value <= now
    case CancelQueued => view.Quiet? && (row.state.QueuedLocal? || row.state.FailedRetryable?)
    case CancelQueuedDone => view == Cancelling(false)
    case CancelNative => view.Quiet? && InSpooler(row.state)
    case CancelNativeFlag(_) => view == Cancelling(true)
    case Offer =>
      && view.Quiet? && row.cloud && !Barred(c.route)
      && (row.state.CloudAcceptPending? || (row.state.FailedRetryable? && !c.route.reserved))
    case Activate => view.Quiet? && row.state.CloudAcceptPending?
    case Abandon => view.Quiet? && row.state.CloudAcceptPending?
  }

  function StoreOpApply(c: Cell, s: StoreOp): Cell
    requires StoreOpEnabled(c, s)
  {
    var row, hist := c.row, c.hist;
    match s
    case Expire(_) => WroteRow(c, Expired, Quiet)
    case CancelQueued => WroteRow(c.(hist := hist.(cancelAsked := true)), CancelRequested, Cancelling(false))
    case CancelQueuedDone => WroteRow(c, Cancelled, Quiet)
    case CancelNative => WroteRow(c.(hist := hist.(cancelAsked := true)), CancelRequested, Cancelling(true))
    case CancelNativeFlag(now) =>
      c.(row := match row.recon
                case None => row
                case Some(r) => row.(recon := Some(r.(cancelRequested := true, nextObserve := now))),
         view := Quiet)
    case Offer =>
      if row.state.CloudAcceptPending? then c.(row := row.(routed := true, nextAttempt := None))
      else c.(row := row.(state := CloudAcceptPending, routed := true, nextAttempt := None),
              route := Route(true, None, true, false), hist := hist.(offers := hist.offers + 1))
    case Activate => WroteRow(c, QueuedLocal, Quiet)
    case Abandon => c.(row := row.(state := Cancelled), route := c.route.(proof := false))
  }

  // ------------------------------------------------ route recovery and resolution

  /** States from which a reservation without evidence is declared unclear. */
  predicate Quarantines(row: Row, route: Route) {
    if row.cloud then route.proof && (row.state.SpoolIntent? || row.state.DeliveryUncertain?)
    else
      row.state.SpoolIntent? || row.state.DeliveryUncertain? || row.state.FailedRetryable? || row.state.FailedTerminal?
  }

  /** States in which a cloud reservation serves no purpose any more. */
  predicate Discards(row: Row) {
    row.cloud &&
    (row.state.FailedRetryable? || row.state.FailedTerminal? || row.state.Cancelled? || row.state.Expired? ||
     row.state.CompletedReported? || row.state.CancelRequested?)
  }

  /** Recovery has something to go by: a local job its evidence, a cloud job its proof. */
  predicate Projects(row: Row, route: Route) {
    row.state.SpoolIntent? && Adopted(route) && (if row.cloud then route.proof else route.latest.Some?)
  }

  /** The stored state already shows what the evidence says. */
  predicate Shows(row: Row, route: Route) {
    && route.latest.Some?
    && match route.latest.value
       case Crossed(native, _) =>
         && (InSpooler(row.state) || row.state.CompletedReported? || row.state.CancelRequested? ||
             row.state.DeliveryUncertain? || row.state.Cancelled? || row.state.FailedTerminal?)
         && row.nativeId == native
         && (native.Some? || !row.state.DeliveryUncertain? || route.confirmed)
       case Refused(_) =>
         || row.state.FailedRetryable? || row.state.FailedTerminal? || row.state.Cancelled? || row.state.Expired?
         || (row.nativeId.Some? &&
             (InSpooler(row.state) || row.state.CompletedReported? || row.state.CancelRequested? ||
              row.state.DeliveryUncertain?))
       case Unclear(_) => false
  }

  predicate RouteOpEnabled(c: Cell, s: RouteOp) {
    var row, route := c.row, c.route;
    c.view.Quiet? &&
    match s
    case Quarantine(_) => !Adopted(route) && Quarantines(row, route)
    case Project => Projects(row, route)
    case Compact => !row.cloud && Shows(row, route)
    case Discard(_) => route.reserved && Discards(row)
    case Resolve(_) => IsUnclear(route) && (row.cloud || row.state.DeliveryUncertain?)
    case Release(_) => row.state.DeliveryUncertain? && IsRefused(route) && Adopted(route)
    case Confirm =>
      && !row.cloud && row.state.DeliveryUncertain? && !route.confirmed
      && route.latest.Some? && route.latest.value.Crossed? && route.latest.value.native.None?
  }

  /** What recovery stores for a spool intent. */
  function Projected(c: Cell): Cell {
    match c.route.latest
    case Some(Crossed(Some(native), at)) => WroteAcceptance(c, native, at)
    case Some(Refused(at)) =>
      if c.row.cloud then WroteRow(c.(route := c.route.(proof := false)), FailedRetryable, Quiet)
      else WroteRetry(c, at + LOCAL_RETRY_DELAY_MS)
    case _ => WroteRow(c, DeliveryUncertain, Quiet)
  }

  function Resolved(route: Route, accepted: bool): Route
    requires route.latest.Some?
  {
    var at := route.latest.value.at;
    route.(reserved := false, latest := Some(if accepted then Crossed(None, at) else Refused(at)))
  }

  function RouteOpApply(c: Cell, s: RouteOp): Cell
    requires RouteOpEnabled(c, s)
  {
    var row, route, hist := c.row, c.route, c.hist;
    match s
    case Quarantine(now) => c.(route := route.(latest := Some(Unclear(now))))
    case Project => Projected(c)
    case Compact => c.(route := route.(latest := None))
    case Discard(now) => c.(route := route.(reserved := false, latest := Some(Refused(now))))
    case Resolve(accepted) => c.(route := Resolved(route, accepted))
    case Release(next) =>
      var released := c.(hist := hist.(releases := hist.releases + 1));
      if row.cloud then WroteRow(released.(route := route.(proof := false)), FailedRetryable, Quiet)
      else WroteRetry(released, next)
    case Confirm => WroteRow(c.(route := route.(confirmed := true)), DeliveryUncertain, Quiet)
  }

  // ---------------------------------------------------------------- execute_job

  function FailureState(o: Outcome): JobState
    requires o.Failed?
  {
    if o.handoffMayHaveSucceeded then DeliveryUncertain
    else if o.retryable then FailedRetryable else FailedTerminal
  }

  predicate RetriesLocally(o: Outcome, cloud: bool) {
    o.Failed? && o.retryable && !o.handoffMayHaveSucceeded && !cloud
  }

  /** What `submit` may answer. Without a reservation it was refused, safely unless an
      earlier handoff is on record; with one but without a record it failed; and a record
      whose write was reported as failed turns the answer into a final failure. */
  predicate MayReturn(point: Point, route: Route, o: Outcome) {
    match point
    case Submitting => SafeFailure(o) || (Barred(route) && o == Failed(false, true))
    case Reserved => o.Failed? && !(o.retryable && o.handoffMayHaveSucceeded)
    case Recorded(native) => o == native || o == Failed(false, !SafeFailure(native))
    case _ => false
  }

  predicate ExecEnabled(c: Cell, s: ExecStep) {
    var row, view := c.row, c.view;
    if s.Begin? then view.Head?
    else
      view.Exec? &&
      match s
      case Requeue => view.point.Starting? && view.snap == FailedRetryable && !row.cloud &&
        CanTransition(view.snap, QueuedLocal)
      case Prepare => view.point.Starting? && view.snap != FailedRetryable && CanTransition(view.snap, Preparing)
      case Reject => view.point.Validating? && CanTransition(view.snap, FailedTerminal)
      case Validated => view.point.Validating?
      case Render => view.point.Ready? && row.pdf && view.snap == Preparing && CanTransition(view.snap, Rendering)
      case Intend => view.point.Ready? &&
        view.snap == (if row.pdf then Rendering else Preparing) && CanTransition(view.snap, SpoolIntent)
      case SubmitStart => view.point.Intending?
      case Reserve => view.point.Submitting? && c.hist.submits != [] && !Barred(c.route)
      case Record(_, _) => view.point.Reserved? && c.hist.submits != []
      case SubmitReturn(o) => c.hist.submits != [] && MayReturn(view.point, c.route, o)
      case RecordAcceptance(_) => view.point.Returned? && view.point.outcome.Accepted? && row.state == SpoolIntent
      case RecordLocalRetry(_) => view.point.Returned? && RetriesLocally(view.point.outcome, row.cloud) &&
        row.state == SpoolIntent
      case RecordFailure => view.point.Returned? && view.point.outcome.Failed? &&
        !RetriesLocally(view.point.outcome, row.cloud) &&
        CanTransition(view.snap, FailureState(view.point.outcome))
      case Begin => false
  }

  function EvidenceOf(o: Outcome, at: int): Evidence {
    match o
    case Accepted(native) => Crossed(Some(native), at)
    case Failed(_, may) => if may then Unclear(at) else Refused(at)
  }

  /** The newest submit turned out to be `fate`. */
  function Fated(h: History, fate: Submit): History
    requires h.submits != []
  {
    h.(submits := h.submits[..|h.submits|-1] + [fate])
  }

  function ExecApply(c: Cell, s: ExecStep): Cell
    requires ExecEnabled(c, s)
  {
    var hist, view := c.hist, c.view;
    match s
    case Begin => c.(view := Exec(view.snap, Starting))
    case Requeue => WroteRow(c, QueuedLocal, Exec(QueuedLocal, Starting))
    case Prepare => WroteRow(c, Preparing, Exec(Preparing, Validating))
    case Reject => WroteRow(c, FailedTerminal, Quiet)
    case Validated => c.(view := Exec(view.snap, Ready))
    case Render => WroteRow(c, Rendering, Exec(Rendering, Ready))
    case Intend => WroteRow(c, SpoolIntent, Exec(SpoolIntent, Intending))
    case SubmitStart => c.(hist := hist.(submits := hist.submits + [Called]), view := Exec(view.snap, Submitting))
    case Reserve =>
      c.(route := c.route.(reserved := true), hist := Fated(hist, InFlight), view := Exec(view.snap, Reserved))
    case Record(o, at) =>
      var evidence := EvidenceOf(o, at);
      c.(route := c.route.(reserved := evidence.Unclear?, latest := Some(evidence)),
         hist := Fated(hist, FateOf(o)), view := Exec(view.snap, Recorded(o)))
    case SubmitReturn(o) =>
      c.(hist := if view.point.Recorded? then hist else Fated(hist, FateOf(o)), view := Exec(view.snap, Returned(o)))
    case RecordAcceptance(now) => WroteAcceptance(c, view.point.outcome.native, now)
    case RecordLocalRetry(now) => WroteRetry(c, now + LOCAL_RETRY_DELAY_MS)
    case RecordFailure => WroteRow(c, FailureState(view.point.outcome), Quiet)
  }

  // ---------------------------------------------------------------- reconcile_item

  predicate ReconEnabled(c: Cell, s: ReconStep) {
    var row, view := c.row, c.view;
    match s
    case Observe(r, now) => view.Due? && view.now == now && row.nativeId.Some? && row.recon.Some? &&
      (FromCancel(r) <==> view.cancelFlag || view.snap == CancelRequested)
    case Orphan => view.Due? && row.nativeId.None?
    case Advance => view.Settling? && !view.plan.Leave? && CanTransition(view.snap, view.plan.to)
    case Finish => view.Finishing?
  }

  function AttemptSchedule(r: Schedule, now: int): Schedule {
    Schedule(now + RECONCILIATION_INTERVAL_MS, r.deadline, r.attempts + 1, false)
  }

  function ReconApply(c: Cell, s: ReconStep): Cell
    requires ReconEnabled(c, s)
  {
    var row, hist, view := c.row, c.hist, c.view;
    match s
    case Observe(r, now) =>
      var plan := PlanFor(view.snap, r, now >= view.deadline);
      c.(row := row.(recon := Some(AttemptSchedule(row.recon.value, now))),
         hist := hist.(tries := hist.tries + 1,
                       early := hist.early + (if now < view.deadline then 1 else 0),
                       inconclusive := hist.inconclusive && Inconclusive(r)),
         view := if plan.Leave? then Quiet else Settling(view.snap, plan))
    case Orphan => c.(view := Settling(view.snap, Settle(DeliveryUncertain)))
    case Advance => WroteRow(c, view.plan.to, if view.plan.Move? then Quiet else Finishing)
    case Finish => c.(row := row.(recon := None), view := Quiet)
  }

  // ---------------------------------------------------------------- any step of one job

  predicate CellEnabled(c: Cell, s: JobStep) {
    match s
    case Outside(op) => StoreOpEnabled(c, op)
    case Recover(rt) => RouteOpEnabled(c, rt)
    case Execute(ex) => ExecEnabled(c, ex)
    case Reconcile(rc) => ReconEnabled(c, rc)
  }

  function CellApply(c: Cell, s: JobStep): Cell
    requires CellEnabled(c, s)
  {
    match s
    case Outside(op) => StoreOpApply(c, op)
    case Recover(rt) => RouteOpApply(c, rt)
    case Execute(ex) => ExecApply(c, ex)
    case Reconcile(rc) => ReconApply(c, rc)
  }

  /** A process crash, or an error returned by the engine: the volatile view is lost.
      A recorded attempt that had not yet stored its final state counts as cut off. */
  function CrashCell(c: Cell): Cell {
    c.(hist := if c.view.Settling? && c.view.plan.Settle? then c.hist.(cuts := c.hist.cuts + 1) else c.hist,
       view := Quiet)
  }

  // ---------------------------------------------------------------- the whole queue

  type World = map<JobId, Cell>

  predicate Waiting(row: Row) {
    (row.state == QueuedLocal || (row.state == FailedRetryable && !row.cloud)) &&
    (row.cloud ==> row.routed)
  }

  /** One row of `runnable_heads`. */
  predicate IsHead(w: World, j: JobId, now: int)
    requires j in w
  {
    var row := w[j].row;
    && Waiting(row)
    && (row.nextAttempt.Some? ==> row.nextAttempt.value <= now)
    && (row.expires.Some? ==> row.expires.value > now)
    && (forall k | k in w && w[k].row.printer == row.printer :: !HoldsPrinter(w[k].row.state))
    && (forall k | k in w && w[k].row.printer == row.printer && Waiting(w[k].row) ::
          row.order <= w[k].row.order)
  }

  /** One row of `due_reconciliations`. */
  predicate IsDue(row: Row, now: int) {
    (InSpooler(row.state) || row.state == CancelRequested) &&
    row.recon.Some? && row.recon.value.nextObserve <= now
  }

  datatype Action =
    | Accept(j: JobId, printer: string, order: nat, pdf: bool, cloud: bool, routed: bool, expires: Option<int>)
    | OfferNew(j: JobId, printer: string, order: nat, pdf: bool, expires: Option<int>)
    | Select(now: int)
    | SelectDue(now: int, chosen: set<JobId>)
    | Crash
    | OnJob(j: JobId, step: JobStep)

  predicate AllQuiet(w: World) {
    forall j | j in w :: w[j].view.Quiet?
  }

  predicate FreshOrder(w: World, printer: string, order: nat) {
    forall k | k in w && w[k].row.printer == printer :: w[k].row.order < order
  }

  function NewHistory(cur: seq<JobState>): History {
    History([], cur, [], 0, 0, 1, 0, 0, 0, 0, false, true)
  }

  function NewCell(a: Action): Cell
    requires a.Accept? || a.OfferNew?
  {
    match a
    case Accept(_, printer, order, pdf, cloud, routed, expires) =>
      Cell(Row(printer, order, pdf, cloud, routed, QueuedLocal, expires, None, None, [QueuedLocal], None),
           NO_ROUTE, NewHistory([QueuedLocal]), Quiet)
    case OfferNew(_, printer, order, pdf, expires) =>
      Cell(Row(printer, order, pdf, true, true, CloudAcceptPending, expires, None, None, [], None),
           Route(true, None, true, false), NewHistory([]), Quiet)
  }

  predicate Enabled(w: World, a: Action) {
    match a
    case Accept(j, printer, order, _, _, _, _) => j !in w && FreshOrder(w, printer, order)
    case OfferNew(j, printer, order, _, _) => j !in w && FreshOrder(w, printer, order)
    case Select(_) => AllQuiet(w)
    case SelectDue(now, chosen) => AllQuiet(w) && forall j | j in chosen :: j in w && IsDue(w[j].row, now)
    case Crash => true
    case OnJob(j, s) => j in w && CellEnabled(w[j], s)
  }

  function Apply(w: World, a: Action): World
    requires Enabled(w, a)
  {
    match a
    case Accept(j, _, _, _, _, _, _) => w[j := NewCell(a)]
    case OfferNew(j, _, _, _, _) => w[j := NewCell(a)]
    case Select(now) =>
      map j | j in w :: if IsHead(w, j, now) then w[j].(view := Head(w[j].row.state)) else w[j]
    case SelectDue(now, chosen) =>
      map j | j in w :: if j in chosen then w[j].(view := DueView(w[j].row, now)) else w[j]
    case Crash => map j | j in w :: CrashCell(w[j])
    case OnJob(j, s) => w[j := CellApply(w[j], s)]
  }

  function DueView(row: Row, now: int): View {
    if row.recon.None? then Quiet
    else Due(row.state, row.recon.value.deadline, row.recon.value.cancelRequested, now)
  }

  /** A run is a sequence of actions, each enabled where it happens. */
  predicate Legal(acts: seq<Action>)
    decreases |acts|, 0
  {
    acts == [] || (Legal(acts[..|acts|-1]) && Enabled(Run(acts[..|acts|-1]), acts[|acts|-1]))
  }

  function Run(acts: seq<Action>): World
    requires Legal(acts)
    decreases |acts|, 1
  {
    if acts == [] then map[] else Apply(Run(acts[..|acts|-1]), acts[|acts|-1])
  }
}
