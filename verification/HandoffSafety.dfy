/** What every run of the handoff protocol keeps, whatever the executor answers
    and wherever the process crashes. */
module HandoffSafety {
  import opened JobStates
  import opened HandoffProtocol

  // ---------------------------------------------------------------- event traces

  /** The events of one attempt up to the point where the spooler may be called. */
  function Lead(pdf: bool): seq<JobState> {
    [QueuedLocal, Preparing] + (if pdf then [Rendering] else []) + [SpoolIntent]
  }

  function Flat(attempts: seq<seq<JobState>>): seq<JobState> {
    if attempts == [] then [] else Flat(attempts[..|attempts|-1]) + attempts[|attempts|-1]
  }

  /** `Lead`, acceptance by the spooler, then observations that left the job there. */
  predicate HandedOverTrace(s: seq<JobState>, pdf: bool) {
    var n := |Lead(pdf)|;
    && n < |s| && s[..n] == Lead(pdf) && s[n] == AcceptedBySpooler
    && forall i | n < i < |s| :: (s[i].Spooling? || s[i].Printing? || s[i].Blocked?)
  }

  /** A safe failure, or an uncertain attempt that was released. */
  predicate RetryTrace(s: seq<JobState>, pdf: bool) {
    s == Lead(pdf) + [FailedRetryable] || IsReleased(s, pdf)
  }

  predicate IsReleased(s: seq<JobState>, pdf: bool) {
    s == Lead(pdf) + [DeliveryUncertain, FailedRetryable]
  }

  predicate WaitingTrace(s: seq<JobState>, pdf: bool) {
    s == [QueuedLocal] || RetryTrace(s, pdf)
  }

  predicate CancelTrace(s: seq<JobState>, pdf: bool, native: bool) {
    |s| > 0 && s[|s|-1] == CancelRequested &&
    if native then HandedOverTrace(s[..|s|-1], pdf) else WaitingTrace(s[..|s|-1], pdf)
  }

  /** The shape of the latest attempt's events when the stored state is `state`; `native`
      says that the spooler accepted the job. */
  predicate AttemptTrace(s: seq<JobState>, state: JobState, pdf: bool, native: bool) {
    match state
    case CloudAcceptPending => s == [] || RetryTrace(s, pdf)
    case QueuedLocal => s == [QueuedLocal]
    case Preparing => s == [QueuedLocal, Preparing]
    case Rendering => pdf && s == [QueuedLocal, Preparing, Rendering]
    case SpoolIntent => s == Lead(pdf)
    case FailedRetryable => RetryTrace(s, pdf)
    case AcceptedBySpooler => s == Lead(pdf) + [AcceptedBySpooler]
    case Spooling => HandedOverTrace(s, pdf) && s[|s|-1] == state
    case Printing => HandedOverTrace(s, pdf) && s[|s|-1] == state
    case Blocked => HandedOverTrace(s, pdf) && s[|s|-1] == state
    case CancelRequested => CancelTrace(s, pdf, native)
    case Expired => |s| > 0 && s[|s|-1] == Expired && WaitingTrace(s[..|s|-1], pdf)
    case CompletedReported => |s| > 0 && s[|s|-1] == state && HandedOverTrace(s[..|s|-1], pdf)
    case Cancelled =>
      if native then |s| > 0 && s[|s|-1] == state &&
        (HandedOverTrace(s[..|s|-1], pdf) || CancelTrace(s[..|s|-1], pdf, true))
      else s == [] || RetryTrace(s, pdf) || (s[|s|-1] == state && CancelTrace(s[..|s|-1], pdf, false))
    case DeliveryUncertain =>
      if native then |s| > 0 && s[|s|-1] == state &&
        (HandedOverTrace(s[..|s|-1], pdf) || CancelTrace(s[..|s|-1], pdf, true))
      else s == Lead(pdf) + [DeliveryUncertain] || s == Lead(pdf) + [DeliveryUncertain, DeliveryUncertain]
    case FailedTerminal =>
      && |s| > 0 && s[|s|-1] == state
      && if native then HandedOverTrace(s[..|s|-1], pdf)
        else s[..|s|-1] == [QueuedLocal, Preparing] || s[..|s|-1] == Lead(pdf)
    case _ => false
  }

  /** How many attempts were released. */
  function ReleasedIn(attempts: seq<seq<JobState>>, pdf: bool): nat {
    if attempts == [] then 0
    else ReleasedIn(attempts[..|attempts|-1], pdf) + ReleasedOnce(attempts[|attempts|-1], pdf)
  }

  /** The attempt went on after a release, if only to be cancelled or to expire. */
  function ReleasedOnce(s: seq<JobState>, pdf: bool): nat {
    var n := |Lead(pdf)| + 2;
    if n <= |s| && IsReleased(s[..n], pdf) then 1 else 0
  }

  predicate TraceInv(c: Cell) {
    && c.row.events == Flat(c.hist.done) + c.hist.cur
    && AttemptTrace(c.hist.cur, c.row.state, c.row.pdf, c.row.nativeId.Some?)
    && (c.row.state.DeliveryUncertain? && c.row.nativeId.None? && !c.route.confirmed ==>
          c.hist.cur == Lead(c.row.pdf) + [DeliveryUncertain])
    && (forall i | 0 <= i < |c.hist.done| :: RetryTrace(c.hist.done[i], c.row.pdf))
  }

  /** Releases show up as released attempts, offers as further attempts. */
  predicate CountInv(c: Cell) {
    && ReleasedIn(c.hist.done, c.row.pdf) + ReleasedOnce(c.hist.cur, c.row.pdf) == c.hist.releases
    && (c.row.cloud ==>
      |c.hist.done| + (if c.row.state.CloudAcceptPending? && c.hist.cur != [] then 1 else 0) < c.hist.offers)
  }

  // ---------------------------------------------------------------- view and schedule

  /** The newest submit. */
  function Newest(c: Cell): Submit {
    if c.hist.submits == [] then SafelyFailed else c.hist.submits[|c.hist.submits|-1]
  }

  /** The journal shows how the executor answered. */
  predicate Evidenced(route: Route, o: Outcome) {
    && route.latest.Some? && route.latest.value == EvidenceOf(o, route.latest.value.at)
    && (route.reserved ==> route.latest.value.Unclear?)
  }

  /** The engine's view of a job agrees with what is stored. */
  predicate ViewInv(c: Cell) {
    var row := c.row;
    match c.view
    case Quiet => true
    case Head(s) => row.state == s && Waiting(row)
    case Exec(s, p) =>
      && row.state == s
      && (match p
          case Starting => Waiting(row)
          case Validating => s == Preparing
          case Ready => s == Preparing || (s == Rendering && row.pdf)
          case _ => s == SpoolIntent)
      && (p.Intending? ==> |c.hist.submits| == c.hist.base)
      && (p.Submitting? || p.Reserved? || p.Recorded? || p.Returned? ==> |c.hist.submits| == c.hist.base + 1)
      && (p.Submitting? ==> Newest(c) == Called)
      && (p.Reserved? ==> Newest(c) == InFlight && c.route.reserved)
      && (p.Recorded? ==> Newest(c) == FateOf(p.outcome) && Evidenced(c.route, p.outcome))
      && (p.Returned? ==> (Newest(c) == SafelyFailed <==> SafeFailure(p.outcome)) && !Newest(c).Called?)
      && (p.Returned? && p.outcome.Accepted? ==> Evidenced(c.route, p.outcome))
    case Due(s, deadline, flag, now) =>
      && row.state == s && (InSpooler(s) || s == CancelRequested)
      && row.recon.Some? && row.recon.value.deadline == deadline
      && row.recon.value.cancelRequested == flag && row.recon.value.nextObserve <= now
    case Settling(s, plan) =>
      && row.state == s && (InSpooler(s) || s == CancelRequested)
      && row.recon.Some? && !row.recon.value.cancelRequested
      && !plan.Leave?
      && (plan.Settle? ==>
        (plan.to.CompletedReported? || plan.to.FailedTerminal? || plan.to.Cancelled? || plan.to.DeliveryUncertain?))
      && (plan.Move? ==> (plan.to.Spooling? || plan.to.Printing? || plan.to.Blocked?))
      && (CanTransition(s, plan.to) || (s == Blocked && plan == Settle(DeliveryUncertain)))
      && (s == CancelRequested ==> plan.Settle? && (plan.to.Cancelled? || plan.to.DeliveryUncertain?))
    case Finishing => IsTerminal(row.state)
    case Cancelling(native) =>
      && row.state == CancelRequested && (native ==> row.recon.Some?)
      && (row.recon.Some? ==> !row.recon.value.cancelRequested)
  }

  predicate ScheduleInv(c: Cell) {
    var row, h := c.row, c.hist;
    && (InSpooler(row.state) ==> row.recon.Some?)
    && (row.recon.Some? ==> row.nativeId.Some?)
    && (row.recon.Some? && row.recon.value.cancelRequested ==> row.state == CancelRequested)
    && (row.state == CancelRequested ==> h.cancelAsked)
    && h.early <= h.tries
    && (!h.cancelAsked ==> h.early <= 299)
    && (InSpooler(row.state) ==>
          && !h.cancelAsked
          && row.recon.value.deadline == h.acceptedAt + UNCERTAINTY_AFTER_MS
          && row.recon.value.nextObserve >= h.acceptedAt + RECONCILIATION_INTERVAL_MS * (h.tries + 1))
    && (InSpooler(row.state) && h.inconclusive ==>
          && row.state == AcceptedBySpooler
          && h.tries <= h.early + h.cuts + (if c.view.Settling? then 1 else 0)
          && (c.view.Settling? ==> c.view.plan == Settle(DeliveryUncertain)))
  }

  // ---------------------------------------------------------------- submits

  /** The current attempt's submit has reached, or may have reached, the spooler. */
  predicate Spent(c: Cell) {
    |c.hist.submits| > c.hist.base && IsRisky(Newest(c))
  }

  /** The current attempt has not called `submit` yet. */
  predicate Unsubmitted(c: Cell) {
    c.row.state.CloudAcceptPending? || Unintended(c) || (c.row.state.SpoolIntent? && |c.hist.submits| == c.hist.base)
  }

  predicate Unintended(c: Cell) {
    c.row.state.QueuedLocal? || c.row.state.Preparing? || c.row.state.Rendering?
  }

  /** A released attempt is paid for by its release; any other may be spent once. */
  predicate SubmitInv(c: Cell) {
    var h := c.hist;
    && h.base <= |h.submits| && (c.row.state.CloudAcceptPending? ==> c.row.cloud)
    && (Unintended(c) ==> |h.submits| == h.base)
    && (!c.row.cloud ==> Risky(h.submits) <= h.releases + (if Spent(c) && !c.row.state.FailedRetryable? then 1 else 0))
    && (c.row.cloud ==> |h.submits| <= h.offers - (if Unsubmitted(c) then 1 else 0))
  }

  // ---------------------------------------------------------------- routes

  /** States a job can be in once the spooler has accepted it. */
  predicate AfterHandoff(s: JobState) {
    InSpooler(s) || s.CancelRequested? || s.CompletedReported? || s.DeliveryUncertain? || s.Cancelled? ||
      s.FailedTerminal?
  }

  /** A spent local intent is fenced: its route is reserved or its evidence bars another
      reservation. What the spooler accepted has no reservation and no other evidence. */
  predicate RouteInv(c: Cell) {
    var row, route := c.row, c.route;
    && (!row.cloud && row.state.SpoolIntent? && Spent(c) ==> route.reserved || Barred(route))
    && (IsUnclear(route) ==> route.reserved)
    && (route.latest.Some? && route.latest.value.Crossed? ==> !route.reserved)
    && (row.nativeId.Some? ==>
          && AfterHandoff(row.state) && !route.reserved
          && (route.latest.Some? ==> route.latest.value.Crossed? && route.latest.value.native == row.nativeId))
    && (row.nativeId.None? ==> !InSpooler(row.state) && !row.state.CompletedReported?)
    && (route.confirmed ==>
          && !row.cloud && row.state.DeliveryUncertain? && row.nativeId.None?
          && !route.reserved && (route.latest.Some? ==> route.latest.value.Crossed?))
  }

  predicate CellInv(c: Cell) {
    ViewInv(c) && ScheduleInv(c) && SubmitInv(c) && RouteInv(c) && TraceInv(c) && CountInv(c)
  }

  lemma FlatAppend(done: seq<seq<JobState>>, s: seq<JobState>)
    ensures Flat(done + [s]) == Flat(done) + s
  {
    assert (done + [s])[..|done|] == done;
  }

  lemma EventsKept(c: Cell, s: JobState, view: View)
    requires c.row.events == Flat(c.hist.done) + c.hist.cur
    ensures var c' := WroteRow(c, s, view); c'.row.events == Flat(c'.hist.done) + c'.hist.cur
  {
    if s == QueuedLocal {
      FlatAppend(c.hist.done, c.hist.cur);
    }
  }

  lemma RiskyAppend(s: seq<Submit>, x: Submit)
    ensures Risky(s + [x]) == Risky(s) + (if IsRisky(x) then 1 else 0)
  {
    assert (s + [x])[..|s|] == s;
  }

  // ---------------------------------------------------------------- traces grow

  /** The state changes that stay within one attempt. */
  predicate Continues(from: JobState, to: JobState, pdf: bool, native: bool) {
    match to
    case Preparing => from == QueuedLocal
    case Rendering => from == Preparing && pdf
    case SpoolIntent => from == (if pdf then Rendering else Preparing)
    case FailedRetryable => from == SpoolIntent
    case FailedTerminal => if native then InSpooler(from) else from == Preparing || from == SpoolIntent
    case Spooling => InSpooler(from)
    case Printing => InSpooler(from)
    case Blocked => InSpooler(from)
    case CompletedReported => InSpooler(from)
    case CancelRequested => if native then InSpooler(from) else from == QueuedLocal || from == FailedRetryable
    case Expired => from == QueuedLocal || from == FailedRetryable
    case Cancelled => from == CancelRequested || (native && InSpooler(from))
    case DeliveryUncertain => if native then from == CancelRequested || InSpooler(from) else from == SpoolIntent
    case _ => false
  }

  lemma SpoolerTrace(s: seq<JobState>, from: JobState, pdf: bool, native: bool)
    requires InSpooler(from) && AttemptTrace(s, from, pdf, native)
    ensures HandedOverTrace(s, pdf)
  {
  }

  lemma ObservationExtends(s: seq<JobState>, to: JobState, pdf: bool)
    requires HandedOverTrace(s, pdf) && (to.Spooling? || to.Printing? || to.Blocked?)
    ensures HandedOverTrace(s + [to], pdf)
  {
    var n := |Lead(pdf)|;
    assert (s + [to])[..n] == s[..n];
  }

  lemma TraceExtends(s: seq<JobState>, from: JobState, to: JobState, pdf: bool, native: bool)
    requires AttemptTrace(s, from, pdf, native) && Continues(from, to, pdf, native)
    ensures AttemptTrace(s + [to], to, pdf, native)
  {
    assert (s + [to])[..|s|] == s;
    if InSpooler(from) {
      SpoolerTrace(s, from, pdf, native);
      if (to.Spooling? || to.Printing? || to.Blocked?) {
        ObservationExtends(s, to, pdf);
      }
    }
  }

  /** The stored trace depends on nothing but events, state, kind, acceptance and confirmation. */
  lemma SameTrace(c: Cell, c': Cell)
    requires TraceInv(c) && CountInv(c)
    requires c'.row.(nextAttempt := c.row.nextAttempt, recon := c.row.recon) == c.row
    requires c'.route.confirmed == c.route.confirmed
    requires c'.hist.done == c.hist.done && c'.hist.cur == c.hist.cur
    requires c'.hist.releases == c.hist.releases && c'.hist.offers >= c.hist.offers
    ensures TraceInv(c') && CountInv(c')
  {
    hide AttemptTrace, ReleasedIn, ReleasedOnce;
  }

  lemma WriteKeepsTrace(c: Cell, to: JobState, view: View)
    requires TraceInv(c) && to != QueuedLocal && !c.route.confirmed
    requires Continues(c.row.state, to, c.row.pdf, c.row.nativeId.Some?)
    ensures TraceInv(WroteRow(c, to, view))
  {
    EventsKept(c, to, view);
    TraceExtends(c.hist.cur, c.row.state, to, c.row.pdf, c.row.nativeId.Some?);
  }

  lemma ReleasedExtends(s: seq<JobState>, to: JobState, pdf: bool)
    ensures ReleasedOnce(s + [to], pdf)
         == ReleasedOnce(s, pdf) + if s == Lead(pdf) + [DeliveryUncertain] && to == FailedRetryable then 1 else 0
  {
    var n := |Lead(pdf)| + 2;
    if n <= |s| {
      assert (s + [to])[..n] == s[..n];
    } else if n == |s| + 1 {
      assert (s + [to])[..n] == s + [to] && (s + [to])[..|s|] == s;
      var whole := Lead(pdf) + [DeliveryUncertain, FailedRetryable];
      assert whole == Lead(pdf) + [DeliveryUncertain] + [FailedRetryable];
      assert s + [to] == whole <==> s == whole[..|s|] && to == whole[|s|];
    }
  }

  lemma WriteKeepsCounts(c: Cell, to: JobState, view: View)
    requires CountInv(c) && to != QueuedLocal && to != CloudAcceptPending
    requires !(c.hist.cur == Lead(c.row.pdf) + [DeliveryUncertain] && to == FailedRetryable)
    ensures CountInv(WroteRow(c, to, view))
  {
    ReleasedExtends(c.hist.cur, to, c.row.pdf);
    hide ReleasedIn, ReleasedOnce;
  }

  lemma ReleaseCounted(c: Cell, view: View)
    requires CountInv(c) && c.hist.cur == Lead(c.row.pdf) + [DeliveryUncertain]
    ensures CountInv(WroteRow(c.(hist := c.hist.(releases := c.hist.releases + 1)), FailedRetryable, view))
  {
    ReleasedExtends(c.hist.cur, FailedRetryable, c.row.pdf);
    hide ReleasedIn, ReleasedOnce;
  }

  lemma NoneReleasedYet(pdf: bool)
    ensures ReleasedOnce([QueuedLocal], pdf) == 0
  {
  }

  /** A finished attempt joins those before it. */
  lemma RestartKeepsCounts(c: Cell, view: View)
    requires TraceInv(c) && CountInv(c) && !c.route.confirmed
    requires c.row.state == CloudAcceptPending || (c.row.state == FailedRetryable && !c.row.cloud)
    ensures CountInv(WroteRow(c, QueuedLocal, view))
  {
    NoneReleasedYet(c.row.pdf);
    if c.hist.cur != [] {
      assert (c.hist.done + [c.hist.cur])[..|c.hist.done|] == c.hist.done;
    }
    hide ReleasedOnce, AttemptTrace, RetryTrace;
  }

  /** An attempt that is made again is a whole one, and a new one begins with its queueing. */
  lemma RestartedTrace(s: seq<JobState>, from: JobState, pdf: bool)
    requires from == CloudAcceptPending || from == FailedRetryable
    requires AttemptTrace(s, from, pdf, false)
    ensures s != [] ==> RetryTrace(s, pdf)
    ensures AttemptTrace([QueuedLocal], QueuedLocal, pdf, false)
  {
  }

  lemma RestartKeepsTrace(c: Cell, view: View)
    requires TraceInv(c) && CountInv(c) && c.row.nativeId.None? && !c.route.confirmed
    requires c.row.state == CloudAcceptPending || (c.row.state == FailedRetryable && !c.row.cloud)
    ensures TraceInv(WroteRow(c, QueuedLocal, view)) && CountInv(WroteRow(c, QueuedLocal, view))
  {
    EventsKept(c, QueuedLocal, view);
    RestartKeepsCounts(c, view);
    RestartedTrace(c.hist.cur, c.row.state, c.row.pdf);
    hide CountInv, ReleasedIn, ReleasedOnce, AttemptTrace, RetryTrace, Flat;
  }

  lemma AcceptanceKeepsTrace(c: Cell, native: string, now: int)
    requires TraceInv(c) && CountInv(c) && c.row.state.SpoolIntent? && !c.route.confirmed
    ensures TraceInv(WroteAcceptance(c, native, now)) && CountInv(WroteAcceptance(c, native, now))
  {
    EventsKept(c, AcceptedBySpooler, Quiet);
    ReleasedExtends(c.hist.cur, AcceptedBySpooler, c.row.pdf);
    hide ReleasedIn, ReleasedOnce;
  }

  lemma ConfirmKeepsTrace(c: Cell)
    requires TraceInv(c) && CountInv(c) && c.row.state.DeliveryUncertain? && c.row.nativeId.None? && !c.route.confirmed
    ensures var c' := WroteRow(c.(route := c.route.(confirmed := true)), DeliveryUncertain, Quiet);
      TraceInv(c') && CountInv(c')
  {
    EventsKept(c, DeliveryUncertain, Quiet);
    ReleasedExtends(c.hist.cur, DeliveryUncertain, c.row.pdf);
    hide ReleasedIn, ReleasedOnce;
    assert Lead(c.row.pdf) + [DeliveryUncertain] + [DeliveryUncertain] ==
      Lead(c.row.pdf) + [DeliveryUncertain, DeliveryUncertain];
  }

  // ---------------------------------------------------------------- steps outside the engine

  lemma StoreOpKeepsView(c: Cell, s: StoreOp)
    requires ViewInv(c) && ScheduleInv(c) && StoreOpEnabled(c, s)
    ensures ViewInv(StoreOpApply(c, s))
  {
  }

  lemma StoreOpKeepsSchedule(c: Cell, s: StoreOp)
    requires ViewInv(c) && ScheduleInv(c) && StoreOpEnabled(c, s)
    ensures ScheduleInv(StoreOpApply(c, s))
  {
  }

  lemma StoreOpKeepsSubmits(c: Cell, s: StoreOp)
    requires SubmitInv(c) && StoreOpEnabled(c, s) && (c.view.Cancelling? ==> c.row.state.CancelRequested?)
    ensures SubmitInv(StoreOpApply(c, s))
  {
    assert StoreOpApply(c, s).hist.submits == c.hist.submits;
    hide Risky;
  }

  lemma StoreOpKeepsRoutes(c: Cell, s: StoreOp)
    requires SubmitInv(c) && RouteInv(c) && StoreOpEnabled(c, s) &&
      (c.view.Cancelling? ==> c.row.state.CancelRequested?)
    ensures RouteInv(StoreOpApply(c, s))
  {
    assert StoreOpApply(c, s).hist.submits == c.hist.submits;
    hide Risky;
  }

  lemma StoreOpKeepsTrace(c: Cell, s: StoreOp)
    requires ViewInv(c) && ScheduleInv(c) && RouteInv(c) && TraceInv(c) && CountInv(c) && StoreOpEnabled(c, s)
    ensures TraceInv(StoreOpApply(c, s)) && CountInv(StoreOpApply(c, s))
  {
    hide AttemptTrace, ReleasedIn, ReleasedOnce, Spent, RetryTrace;
    match s
    case Activate => RestartKeepsTrace(c, Quiet);
    case Offer => OfferKeepsTrace(c);
    case Abandon => AbandonKeepsTrace(c);
    case CancelNativeFlag(_) => SameTrace(c, StoreOpApply(c, s));
    case CancelQueued =>
      WriteKeepsTrace(c, CancelRequested, Cancelling(false));
      WriteKeepsCounts(c, CancelRequested, Cancelling(false));
    case CancelNative =>
      WriteKeepsTrace(c, CancelRequested, Cancelling(true));
      WriteKeepsCounts(c, CancelRequested, Cancelling(true));
    case Expire(_) =>
      WriteKeepsTrace(c, Expired, Quiet);
      WriteKeepsCounts(c, Expired, Quiet);
    case CancelQueuedDone =>
      WriteKeepsTrace(c, Cancelled, Quiet);
      WriteKeepsCounts(c, Cancelled, Quiet);
  }

  lemma OfferKeepsTrace(c: Cell)
    requires TraceInv(c) && CountInv(c) && RouteInv(c) && StoreOpEnabled(c, Offer)
    ensures TraceInv(StoreOpApply(c, Offer)) && CountInv(StoreOpApply(c, Offer))
  {
    hide ReleasedIn, ReleasedOnce, Spent;
  }

  lemma AbandonKeepsTrace(c: Cell)
    requires TraceInv(c) && CountInv(c) && RouteInv(c) && StoreOpEnabled(c, Abandon)
    ensures TraceInv(StoreOpApply(c, Abandon)) && CountInv(StoreOpApply(c, Abandon))
  {
    hide ReleasedIn, ReleasedOnce, Spent;
  }

  lemma StoreOpKeepsCell(c: Cell, s: StoreOp)
    requires CellInv(c) && StoreOpEnabled(c, s)
    ensures CellInv(StoreOpApply(c, s))
  {
    StoreOpKeepsView(c, s);
    StoreOpKeepsSchedule(c, s);
    StoreOpKeepsSubmits(c, s);
    StoreOpKeepsRoutes(c, s);
    StoreOpKeepsTrace(c, s);
    hide StoreOpApply, StoreOpEnabled, ViewInv, ScheduleInv, SubmitInv, RouteInv, TraceInv, CountInv;
  }

  // ---------------------------------------------------------------- route recovery

  lemma RouteOpKeepsView(c: Cell, s: RouteOp)
    requires ViewInv(c) && RouteOpEnabled(c, s)
    ensures ViewInv(RouteOpApply(c, s))
  {
  }

  lemma AcceptanceStartsSchedule(c: Cell, native: string, now: int)
    requires ScheduleInv(c) && c.row.recon.None?
    ensures ScheduleInv(WroteAcceptance(c, native, now))
  {
  }

  lemma ProjectKeepsSchedule(c: Cell)
    requires ScheduleInv(c) && c.row.nativeId.None? && c.row.state.SpoolIntent? && c.view.Quiet?
    ensures ScheduleInv(Projected(c))
  {
    match c.route.latest
    case Some(Crossed(Some(native), at)) => AcceptanceStartsSchedule(c, native, at);
    case _ =>
  }

  lemma RouteOpKeepsSchedule(c: Cell, s: RouteOp)
    requires ScheduleInv(c) && RouteInv(c) && RouteOpEnabled(c, s)
    ensures ScheduleInv(RouteOpApply(c, s))
  {
    hide Shows, Spent, Quarantines, Discards;
    if s.Project? {
      ProjectKeepsSchedule(c);
      hide Projected;
    }
  }

  lemma RouteOpKeepsSubmits(c: Cell, s: RouteOp)
    requires SubmitInv(c) && RouteInv(c) && RouteOpEnabled(c, s)
    ensures SubmitInv(RouteOpApply(c, s))
  {
    hide Risky, Shows, Quarantines, Discards;
    if s.Project? {
      ProjectKeepsSubmits(c);
      hide Projected, RouteInv, SubmitInv;
    }
  }

  /** A refused local intent was not spent, so recovery gives nothing away. */
  lemma ProjectKeepsSubmits(c: Cell)
    requires SubmitInv(c) && RouteInv(c) && Projects(c.row, c.route)
    ensures SubmitInv(Projected(c))
  {
    hide Risky;
    assert Projected(c).hist.submits == c.hist.submits;
  }

  lemma RouteOpKeepsRoutes(c: Cell, s: RouteOp)
    requires RouteInv(c) && RouteOpEnabled(c, s)
    ensures RouteInv(RouteOpApply(c, s))
  {
    assert RouteOpApply(c, s).hist.submits == c.hist.submits;
    hide Risky;
  }

  lemma ProjectKeepsTrace(c: Cell)
    requires RouteInv(c) && TraceInv(c) && CountInv(c) && c.row.state.SpoolIntent?
    ensures TraceInv(Projected(c)) && CountInv(Projected(c))
  {
    assert c.hist.cur == Lead(c.row.pdf);
    hide AttemptTrace, ReleasedIn, ReleasedOnce, Spent, RetryTrace;
    match c.route.latest
    case Some(Crossed(Some(native), at)) => AcceptanceKeepsTrace(c, native, at);
    case Some(Refused(at)) =>
      WriteKeepsTrace(c, FailedRetryable, Quiet);
      WriteKeepsCounts(c, FailedRetryable, Quiet);
      SameTrace(WroteRow(c, FailedRetryable, Quiet), Projected(c));
    case _ =>
      WriteKeepsTrace(c, DeliveryUncertain, Quiet);
      WriteKeepsCounts(c, DeliveryUncertain, Quiet);
  }

  lemma ReleaseKeepsTrace(c: Cell, next: int)
    requires RouteInv(c) && TraceInv(c) && CountInv(c) && RouteOpEnabled(c, Release(next))
    ensures TraceInv(RouteOpApply(c, Release(next))) && CountInv(RouteOpApply(c, Release(next)))
  {
    var released := WroteRow(c.(hist := c.hist.(releases := c.hist.releases + 1)), FailedRetryable, Quiet);
    EventsKept(c, FailedRetryable, Quiet);
    assert c.hist.cur == Lead(c.row.pdf) + [DeliveryUncertain];
    assert IsReleased(c.hist.cur + [FailedRetryable], c.row.pdf);
    ReleaseCounted(c, Quiet);
    hide ReleasedIn, ReleasedOnce, Spent;
    SameTrace(released, RouteOpApply(c, Release(next)));
  }

  lemma RouteOpKeepsTrace(c: Cell, s: RouteOp)
    requires RouteInv(c) && TraceInv(c) && CountInv(c) && RouteOpEnabled(c, s)
    ensures TraceInv(RouteOpApply(c, s)) && CountInv(RouteOpApply(c, s))
  {
    hide TraceInv, CountInv, Shows, Quarantines, Discards, Spent;
    match s
    case Project => ProjectKeepsTrace(c);
    case Release(next) => ReleaseKeepsTrace(c, next);
    case Confirm => ConfirmKeepsTrace(c);
    case _ => SameTrace(c, RouteOpApply(c, s));
  }

  lemma RouteOpKeepsCell(c: Cell, s: RouteOp)
    requires CellInv(c) && RouteOpEnabled(c, s)
    ensures CellInv(RouteOpApply(c, s))
  {
    RouteOpKeepsView(c, s);
    RouteOpKeepsSchedule(c, s);
    RouteOpKeepsSubmits(c, s);
    RouteOpKeepsRoutes(c, s);
    RouteOpKeepsTrace(c, s);
    hide RouteOpApply, RouteOpEnabled, ViewInv, ScheduleInv, SubmitInv, RouteInv, TraceInv, CountInv;
  }

  // ---------------------------------------------------------------- execute_job

  lemma ExecKeepsView(c: Cell, s: ExecStep)
    requires ViewInv(c) && SubmitInv(c) && ExecEnabled(c, s)
    ensures ViewInv(ExecApply(c, s))
  {
    hide CanTransition, Risky;
  }

  /** Until acceptance, executing a job leaves its schedule alone. */
  lemma ExecLeavesSchedule(c: Cell, s: ExecStep)
    requires ViewInv(c) && ExecEnabled(c, s) && !s.RecordAcceptance?
    ensures var c' := ExecApply(c, s);
      && c'.row.recon == c.row.recon && c'.row.nativeId == c.row.nativeId
      && c'.hist.early == c.hist.early && c'.hist.tries == c.hist.tries
      && c'.hist.cancelAsked == c.hist.cancelAsked
  {
    hide CanTransition;
  }

  /** Nor does it start or end in a state that reconciliation looks after. */
  lemma ExecStaysOutside(c: Cell, s: ExecStep)
    requires ViewInv(c) && ExecEnabled(c, s) && !s.RecordAcceptance?
    ensures !InSpooler(ExecApply(c, s).row.state) && ExecApply(c, s).row.state != CancelRequested
    ensures !InSpooler(c.row.state) && c.row.state != CancelRequested
  {
    hide CanTransition, MayReturn, Newest, Evidenced;
  }

  lemma ExecKeepsSchedule(c: Cell, s: ExecStep)
    requires ViewInv(c) && ScheduleInv(c) && RouteInv(c) && ExecEnabled(c, s)
    ensures ScheduleInv(ExecApply(c, s))
  {
    hide CanTransition, Spent;
    if s.RecordAcceptance? {
      AcceptanceStartsSchedule(c, c.view.point.outcome.native, s.now);
    } else {
      ExecLeavesSchedule(c, s);
      ExecStaysOutside(c, s);
      hide ExecApply, ExecEnabled;
    }
  }

  /** Apart from the call itself, executing a job submits nothing and frees no
      attempt for another submit. */
  lemma OnlyTheCallSubmits(c: Cell, s: ExecStep)
    requires ViewInv(c) && SubmitInv(c) && ExecEnabled(c, s)
    requires !s.SubmitStart? && !s.Reserve? && !s.Record? && !s.SubmitReturn?
    ensures SubmitInv(ExecApply(c, s))
  {
    hide CanTransition, Risky, Evidenced;
    assert ExecApply(c, s).hist.submits == c.hist.submits;
  }

  lemma FateCounts(h: History, fate: Submit)
    requires h.submits != []
    ensures Risky(Fated(h, fate).submits) + (if IsRisky(h.submits[|h.submits|-1]) then 1 else 0)
         == Risky(h.submits) + (if IsRisky(fate) then 1 else 0)
  {
    var init := h.submits[..|h.submits|-1];
    assert h.submits == init + [h.submits[|h.submits|-1]];
    RiskyAppend(init, h.submits[|h.submits|-1]);
    RiskyAppend(init, fate);
  }

  /** A call spends the attempt at most once, and not before its route is reserved. */
  lemma CallKeepsSubmits(c: Cell, s: ExecStep)
    requires ViewInv(c) && SubmitInv(c) && ExecEnabled(c, s)
    requires s.SubmitStart? || s.Reserve? || s.Record? || s.SubmitReturn?
    ensures SubmitInv(ExecApply(c, s))
  {
    hide Risky, CanTransition, Evidenced;
    match s
    case SubmitStart => RiskyAppend(c.hist.submits, Called);
    case Reserve => FateCounts(c.hist, InFlight);
    case Record(o, _) => FateCounts(c.hist, FateOf(o));
    case SubmitReturn(o) => FateCounts(c.hist, FateOf(o));
  }

  lemma ExecKeepsSubmits(c: Cell, s: ExecStep)
    requires ViewInv(c) && SubmitInv(c) && ExecEnabled(c, s)
    ensures SubmitInv(ExecApply(c, s))
  {
    hide ExecApply, ExecEnabled, ViewInv, SubmitInv;
    if s.SubmitStart? || s.Reserve? || s.Record? || s.SubmitReturn? {
      CallKeepsSubmits(c, s);
    } else {
      OnlyTheCallSubmits(c, s);
    }
  }

  lemma ExecKeepsRoutes(c: Cell, s: ExecStep)
    requires ViewInv(c) && SubmitInv(c) && RouteInv(c) && ExecEnabled(c, s)
    ensures RouteInv(ExecApply(c, s))
  {
    hide Risky, CanTransition;
  }

  lemma ExecKeepsTrace(c: Cell, s: ExecStep)
    requires ViewInv(c) && RouteInv(c) && TraceInv(c) && CountInv(c) && ExecEnabled(c, s)
    ensures TraceInv(ExecApply(c, s)) && CountInv(ExecApply(c, s))
  {
    ExecIsEarly(c, s);
    hide TraceInv, CountInv, RouteInv, CanTransition, MayReturn, Evidenced, Newest;
    match s
    case Requeue => RestartKeepsTrace(c, Exec(QueuedLocal, Starting));
    case Prepare => ExecWriteKeepsTrace(c, Preparing, Exec(Preparing, Validating));
    case Reject => ExecWriteKeepsTrace(c, FailedTerminal, Quiet);
    case Render => ExecWriteKeepsTrace(c, Rendering, Exec(Rendering, Ready));
    case Intend => ExecWriteKeepsTrace(c, SpoolIntent, Exec(SpoolIntent, Intending));
    case RecordAcceptance(now) => AcceptanceKeepsTrace(c, c.view.point.outcome.native, now);
    case RecordLocalRetry(_) =>
      ExecWriteKeepsTrace(c, FailedRetryable, Quiet);
      SameTrace(WroteRow(c, FailedRetryable, Quiet), ExecApply(c, s));
    case RecordFailure => ExecWriteKeepsTrace(c, FailureState(c.view.point.outcome), Quiet);
    case _ => SameTrace(c, ExecApply(c, s));
  }

  /** While it executes, a job is neither accepted nor confirmed. */
  lemma ExecIsEarly(c: Cell, s: ExecStep)
    requires ViewInv(c) && RouteInv(c) && ExecEnabled(c, s)
    ensures c.row.nativeId.None? && !c.route.confirmed && !c.row.state.DeliveryUncertain?
  {
    hide CanTransition, MayReturn, Evidenced, Newest, Spent;
  }

  lemma ExecWriteKeepsTrace(c: Cell, to: JobState, view: View)
    requires TraceInv(c) && CountInv(c) && c.row.nativeId.None? && !c.route.confirmed
    requires Continues(c.row.state, to, c.row.pdf, false) && !c.row.state.DeliveryUncertain?
    ensures TraceInv(WroteRow(c, to, view)) && CountInv(WroteRow(c, to, view))
  {
    WriteKeepsTrace(c, to, view);
    if to == FailedRetryable { assert c.hist.cur == Lead(c.row.pdf); }
    WriteKeepsCounts(c, to, view);
  }

  lemma ExecKeepsCell(c: Cell, s: ExecStep)
    requires CellInv(c) && ExecEnabled(c, s)
    ensures CellInv(ExecApply(c, s))
  {
    ExecKeepsView(c, s);
    ExecKeepsSchedule(c, s);
    ExecKeepsSubmits(c, s);
    ExecKeepsRoutes(c, s);
    ExecKeepsTrace(c, s);
    hide ExecApply, ExecEnabled, ViewInv, ScheduleInv, SubmitInv, RouteInv, TraceInv, CountInv;
  }

  // ---------------------------------------------------------------- reconcile_item

  lemma ReconKeepsView(c: Cell, s: ReconStep)
    requires ViewInv(c) && ScheduleInv(c) && ReconEnabled(c, s)
    ensures ViewInv(ReconApply(c, s))
  {
  }

  lemma ReconKeepsSchedule(c: Cell, s: ReconStep)
    requires ViewInv(c) && ScheduleInv(c) && ReconEnabled(c, s)
    ensures ScheduleInv(ReconApply(c, s))
  {
  }

  lemma ReconKeepsSubmits(c: Cell, s: ReconStep)
    requires ViewInv(c) && SubmitInv(c) && ReconEnabled(c, s)
    ensures SubmitInv(ReconApply(c, s))
  {
    hide Risky;
  }

  lemma ReconKeepsRoutes(c: Cell, s: ReconStep)
    requires ViewInv(c) && ScheduleInv(c) && RouteInv(c) && ReconEnabled(c, s)
    ensures RouteInv(ReconApply(c, s))
  {
    hide Risky;
  }

  lemma ReconKeepsTrace(c: Cell, s: ReconStep)
    requires ViewInv(c) && ScheduleInv(c) && RouteInv(c) && TraceInv(c) && CountInv(c) && ReconEnabled(c, s)
    ensures TraceInv(ReconApply(c, s)) && CountInv(ReconApply(c, s))
  {
    hide AttemptTrace, ReleasedIn, ReleasedOnce, Spent, RetryTrace;
    if s.Advance? {
      var view := if c.view.plan.Move? then Quiet else Finishing;
      WriteKeepsTrace(c, c.view.plan.to, view);
      WriteKeepsCounts(c, c.view.plan.to, view);
    } else {
      SameTrace(c, ReconApply(c, s));
    }
  }

  lemma ReconKeepsCell(c: Cell, s: ReconStep)
    requires CellInv(c) && ReconEnabled(c, s)
    ensures CellInv(ReconApply(c, s))
  {
    ReconKeepsView(c, s);
    ReconKeepsSchedule(c, s);
    ReconKeepsSubmits(c, s);
    ReconKeepsRoutes(c, s);
    ReconKeepsTrace(c, s);
    hide ReconApply, ReconEnabled, ViewInv, ScheduleInv, SubmitInv, RouteInv, TraceInv, CountInv;
  }

  // ---------------------------------------------------------------- any step

  lemma StepKeepsCell(c: Cell, s: JobStep)
    requires CellInv(c) && CellEnabled(c, s)
    ensures CellInv(CellApply(c, s))
  {
    hide CellInv, StoreOpApply, StoreOpEnabled, RouteOpApply, RouteOpEnabled, ExecApply, ExecEnabled, ReconApply,
      ReconEnabled;
    match s
    case Outside(op) => StoreOpKeepsCell(c, op);
    case Recover(rt) => RouteOpKeepsCell(c, rt);
    case Execute(ex) => ExecKeepsCell(c, ex);
    case Reconcile(rc) => ReconKeepsCell(c, rc);
  }

  lemma CrashKeepsCell(c: Cell)
    requires CellInv(c)
    ensures CellInv(CrashCell(c))
  {
    hide Risky, AttemptTrace, ReleasedIn, ReleasedOnce;
  }

  lemma NewCellInv(a: Action)
    requires a.Accept? || a.OfferNew?
    ensures CellInv(NewCell(a))
  {
  }

  lemma PickedCellInv(c: Cell)
    requires CellInv(c) && c.view.Quiet? && Waiting(c.row)
    ensures CellInv(c.(view := Head(c.row.state)))
  {
    hide Risky, AttemptTrace, ReleasedIn, ReleasedOnce;
  }

  lemma DueCellInv(c: Cell, now: int)
    requires CellInv(c) && c.view.Quiet? && IsDue(c.row, now)
    ensures CellInv(c.(view := DueView(c.row, now)))
  {
    hide Risky, AttemptTrace, ReleasedIn, ReleasedOnce;
  }

  /** An inconclusive report at or after the deadline, and the write it asks for. */
  lemma LateReport(c: Cell, r: Report, now: int)
    requires ViewInv(c) && ReconEnabled(c, Observe(r, now)) && Inconclusive(r) && now >= c.view.deadline
    ensures var c' := ReconApply(c, Observe(r, now));
      && (ReconEnabled(c', Advance) <==> c.row.state != Blocked)
      && (c.row.state != Blocked ==> ReconApply(c', Advance).row.state == DeliveryUncertain)
  {
    assert PlanFor(c.view.snap, r, true) == Settle(DeliveryUncertain);
  }
}
