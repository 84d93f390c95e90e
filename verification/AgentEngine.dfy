/** The agent engine. Its ghost field `acts` records every store write, query and
    executor call in order; `Valid` says that this record is a run of the handoff
    protocol that ends in what is stored. A crash keeps a prefix of the record,
    which is a run too, so the theorems of `HandoffRuns` speak about the engine at
    every write boundary. */
module AgentEngine {
  import opened Options
  import opened JobStates
  import opened HandoffProtocol
  import opened AgentStore
  import opened RouteCoordinator

  datatype Execution = Unfinished | Rejected | Submitted(outcome: Outcome)

  function Begun(row: Row): (r: Row)
    ensures r.pdf == row.pdf && r.cloud == row.cloud && r.state == Preparing
  {
    Logged(if row.state == FailedRetryable then Logged(row, QueuedLocal) else row, Preparing)
  }

  function Intent(row: Row): (r: Row)
    ensures r.pdf == row.pdf && r.cloud == row.cloud && r.state == SpoolIntent
  {
    Logged(if row.pdf then Logged(row, Rendering) else row, SpoolIntent)
  }

  function Answered(o: Outcome): JobState {
    if o.Accepted? then AcceptedBySpooler else FailureState(o)
  }

  /** The events one call of `execute_job` appends when it does not fail. */
  function ExecutionEvents(row: Row, e: Execution): seq<JobState> {
    (if row.state == FailedRetryable then [QueuedLocal] else []) + [Preparing] +
    match e
    case Unfinished => []
    case Rejected => [FailedTerminal]
    case Submitted(o) => (if row.pdf then [Rendering] else []) + [SpoolIntent, Answered(o)]
  }

  lemma EventsOfExecution(row: Row, o: Outcome)
    ensures Begun(row).events + [FailedTerminal] == row.events + ExecutionEvents(row, Rejected)
    ensures Intent(Begun(row)).events + [Answered(o)] == row.events + ExecutionEvents(row, Submitted(o))
  {
  }

  function Attempted(row: Row, now: int): Row
    requires row.recon.Some?
  {
    row.(recon := Some(AttemptSchedule(row.recon.value, now)))
  }

  function PlanOf(row: Row, r: Report, now: int): Plan
    requires row.recon.Some?
  {
    PlanFor(row.state, r, now >= row.recon.value.deadline)
  }

  function Progressed(row: Row, plan: Plan): Row {
    match plan
    case Leave => row
    case Move(to) => Logged(row, to)
    case Settle(to) => Logged(row, to).(recon := None)
  }

  /** `expire_waiting`. */
  function AfterExpiry(rows: map<JobId, Row>, now: int): map<JobId, Row> {
    map j | j in rows :: if WaitingPastDeadline(rows[j], now) then Logged(rows[j], Expired) else rows[j]
  }

  lemma ExpiresExactly(rows: map<JobId, Row>, now: int)
    ensures forall j | j in rows ::
      var row := rows[j];
      j in AfterExpiry(rows, now) && AfterExpiry(rows, now)[j] ==
        if (row.state == QueuedLocal || row.state == FailedRetryable) && row.expires.Some? && row.expires.value <= now
        then row.(state := Expired, events := row.events + [Expired]) else row
  {
  }

  function WithExpired(rows: map<JobId, Row>, jobs: seq<LocalJob>): map<JobId, Row> {
    if jobs == [] then rows
    else
      var job := jobs[|jobs|-1];
      WithExpired(rows, jobs[..|jobs|-1])[job.id := Logged(job.row, Expired)]
  }

  lemma {:induction false} WithExpiredKeeps(rows: map<JobId, Row>, jobs: seq<LocalJob>, i: nat)
    requires i < |jobs| && NoDuplicates(jobs) && Current(rows, jobs)
    ensures forall m | i <= m < |jobs| ::
      jobs[m].id in WithExpired(rows, jobs[..i]) && WithExpired(rows, jobs[..i])[jobs[m].id] == jobs[m].row
  {
    if i > 0 {
      WithExpiredKeeps(rows, jobs, i - 1);
      assert jobs[..i][..i - 1] == jobs[..i - 1];
    }
  }

  lemma {:induction false} WithExpiredAt(rows: map<JobId, Row>, jobs: seq<LocalJob>)
    requires Current(rows, jobs)
    ensures WithExpired(rows, jobs).Keys == rows.Keys
    ensures forall j | j in rows ::
      WithExpired(rows, jobs)[j] == if LocalJob(j, rows[j]) in jobs then Logged(rows[j], Expired) else rows[j]
  {
    if jobs != [] {
      var init := jobs[..|jobs|-1];
      WithExpiredAt(rows, init);
      assert jobs == init + [jobs[|jobs|-1]];
    }
  }

  lemma ExpiredWith(rows: map<JobId, Row>, jobs: seq<LocalJob>, now: int)
    requires Current(rows, jobs)
    requires forall j | j in rows :: WaitingPastDeadline(rows[j], now) <==> LocalJob(j, rows[j]) in jobs
    ensures WithExpired(rows, jobs) == AfterExpiry(rows, now)
    ensures forall job | job in jobs :: WaitingPastDeadline(job.row, now)
  {
    WithExpiredAt(rows, jobs);
  }

  /** The row after one reconciliation that reported `r`. */
  function Reconciled(row: Row, r: Report, now: int): Row
    requires row.recon.Some?
  {
    Progressed(Attempted(row, now), PlanOf(row, r, now))
  }

  /** `s` was stored, with its event. */
  function Stored(row: Row, s: JobState): Row {
    row.(state := s, events := row.events + [s])
  }

  /** The final state `s` was stored and reconciliation is over. */
  function Closed(row: Row, s: JobState): Row {
    row.(state := s, events := row.events + [s], recon := None)
  }

  /** What each report makes of a job: the attempt is counted and the next observation set;
      an answer that settles nothing counts against the deadline. */
  function AsReported(row: Row, r: Report, now: int): Row
    requires row.recon.Some?
  {
    var s := row.recon.value;
    var observed := row.(recon := Some(Schedule(now + 2_000, s.deadline, s.attempts + 1, false)));
    match r
    case Seen(NativeQueued) =>
      if row.state in {AcceptedBySpooler, Blocked} then Stored(observed, Spooling) else observed
    case Seen(NativePrinting) =>
      if row.state in {AcceptedBySpooler, Spooling, Blocked} then Stored(observed, Printing) else observed
    case Seen(NativeBlocked) => if row.state != Blocked then Stored(observed, Blocked) else observed
    case Seen(NativeCompleted) => Closed(observed, CompletedReported)
    case Seen(NativeFailed) => Closed(observed, FailedTerminal)
    case Seen(NativeCancelled) => Closed(observed, Cancelled)
    case CancelAccepted => Closed(observed, Cancelled)
    case Seen(NativeMissing) => if now >= s.deadline then Closed(observed, DeliveryUncertain) else observed
    case Seen(NativeUnknown) => if now >= s.deadline then Closed(observed, DeliveryUncertain) else observed
    case ObserveFailed => if now >= s.deadline then Closed(observed, DeliveryUncertain) else observed
    case CancelFailed => if now >= s.deadline then Closed(observed, DeliveryUncertain) else observed
  }

  lemma ReconciledAsReported(row: Row, r: Report, now: int)
    requires row.recon.Some?
    ensures Reconciled(row, r, now) == AsReported(row, r, now)
  {
  }

  predicate OthersKept(w: World, w': World, j: JobId) {
    w'.Keys == w.Keys && forall k | k in w && k != j :: w'[k] == w[k]
  }

  lemma HeadsAgree(w: World, rows: map<JobId, Row>, j: JobId, now: int)
    requires j in w && w.Keys == rows.Keys && forall k | k in rows :: w[k].row == rows[k]
    ensures IsHead(w, j, now) <==> RunnableHead(rows, j, now)
  {
  }

  /** The first heads gained the events of one finished execution each. */
  predicate Executed(rows: map<JobId, Row>, heads: seq<LocalJob>, done: seq<Execution>) {
    && |done| <= |heads|
    && forall i | 0 <= i < |done| ::
      && !done[i].Unfinished? && heads[i].id in rows
      && rows[heads[i].id].events == heads[i].row.events + ExecutionEvents(heads[i].row, done[i])
  }

  /** One more head was executed, and the rows of the others are as they were. */
  lemma ExecutedNext(before: map<JobId, Row>, after: map<JobId, Row>, heads: seq<LocalJob>, done: seq<Execution>,
      e: Execution)
    requires Executed(before, heads, done) && |done| < |heads| && NoDuplicates(heads)
    requires forall k | k in before && k != heads[|done|].id :: k in after && after[k] == before[k]
    requires var job := heads[|done|];
      && !e.Unfinished? && job.id in after
      && after[job.id].events == job.row.events + ExecutionEvents(job.row, e)
    ensures Executed(after, heads, done + [e])
  {
    hide ExecutionEvents;
  }

  /** The first due jobs were reconciled by one report each; jobs not listed are as they were. */
  predicate ReconciledRows(before: map<JobId, Row>, after: map<JobId, Row>, items: seq<LocalJob>,
                           reports: seq<Report>, now: int) {
    && |reports| <= |items| && after.Keys == before.Keys
    && (forall i | 0 <= i < |items| :: items[i].id in before && IsDue(items[i].row, now))
    && (forall i | 0 <= i < |reports| && items[i].row.nativeId.Some? ::
          after[items[i].id] == Reconciled(items[i].row, reports[i], now))
    && (forall k | k in before && (forall i | 0 <= i < |items| :: items[i].id != k) :: after[k] == before[k])
  }

  // ---------------------------------------------------------------- one step, as the engine sees it

  /** Step `s` is allowed and leaves `row` and `view`, and the route as it is. */
  ghost predicate Leads(c: Cell, s: JobStep, row: Row, view: View) {
    CellEnabled(c, s) && CellApply(c, s).row == row && CellApply(c, s).view == view && CellApply(c, s).route == c.route
  }

  /** Step `s` is allowed and leaves `route` and `view`, and the row as it is. */
  ghost predicate LeadsRoute(c: Cell, s: JobStep, route: Route, view: View) {
    CellEnabled(c, s) && CellApply(c, s).route == route && CellApply(c, s).view == view && CellApply(c, s).row == c.row
  }

  lemma BeginStep(c: Cell)
    requires c.view.Head?
    ensures Leads(c, Execute(Begin), c.row, Exec(c.view.snap, Starting))
  {
  }

  lemma RequeueStep(c: Cell)
    requires c.view == Exec(FailedRetryable, Starting) && !c.row.cloud
    ensures Leads(c, Execute(Requeue), Logged(c.row, QueuedLocal), Exec(QueuedLocal, Starting))
  {
  }

  lemma PrepareStep(c: Cell)
    requires c.view.Exec? && c.view.point.Starting? && c.view.snap != FailedRetryable &&
      CanTransition(c.view.snap, Preparing)
    ensures Leads(c, Execute(Prepare), Logged(c.row, Preparing), Exec(Preparing, Validating))
  {
  }

  lemma RejectStep(c: Cell)
    requires c.view == Exec(Preparing, Validating)
    ensures Leads(c, Execute(Reject), Logged(c.row, FailedTerminal), Quiet)
  {
  }

  lemma ValidatedStep(c: Cell)
    requires c.view == Exec(Preparing, Validating)
    ensures Leads(c, Execute(Validated), c.row, Exec(Preparing, Ready))
  {
  }

  lemma RenderStep(c: Cell)
    requires c.view == Exec(Preparing, Ready) && c.row.pdf
    ensures Leads(c, Execute(Render), Logged(c.row, Rendering), Exec(Rendering, Ready))
  {
  }

  lemma IntendStep(c: Cell)
    requires c.view == Exec(if c.row.pdf then Rendering else Preparing, Ready)
    ensures Leads(c, Execute(Intend), Logged(c.row, SpoolIntent), Exec(SpoolIntent, Intending))
  {
  }

  lemma CallStep(c: Cell)
    requires c.view == Exec(SpoolIntent, Intending)
    ensures Leads(c, Execute(SubmitStart), c.row, Exec(SpoolIntent, Submitting))
    ensures CellApply(c, Execute(SubmitStart)).hist.submits != []
  {
  }

  lemma ReserveStep(c: Cell)
    requires c.view == Exec(SpoolIntent, Submitting) && c.hist.submits != [] && !Barred(c.route)
    ensures LeadsRoute(c, Execute(Reserve), ReservedRoute(c.route), Exec(SpoolIntent, Reserved))
    ensures CellApply(c, Execute(Reserve)).hist.submits != []
  {
  }

  lemma RecordStep(c: Cell, o: Outcome, at: int)
    requires c.view == Exec(SpoolIntent, Reserved) && c.hist.submits != []
    ensures LeadsRoute(c, Execute(Record(o, at)), RecordedRoute(c.route, o, at), Exec(SpoolIntent, Recorded(o)))
    ensures CellApply(c, Execute(Record(o, at))).hist.submits != []
  {
  }

  lemma ReturnStep(c: Cell, o: Outcome)
    requires c.view.Exec? && c.view.snap == SpoolIntent && c.hist.submits != [] && MayReturn(c.view.point, c.route, o)
    ensures Leads(c, Execute(SubmitReturn(o)), c.row, Exec(SpoolIntent, Returned(o)))
  {
  }

  lemma AcceptanceStep(c: Cell, native: string, now: int)
    requires c.view.Exec? && c.view.point.Returned? && c.view.point.outcome == Accepted(native) &&
      c.row.state == SpoolIntent
    ensures Leads(c, Execute(RecordAcceptance(now)), Logged(c.row, AcceptedBySpooler).(
      nativeId := Some(native), recon := Some(AcceptanceSchedule(c.row.recon, now))), Quiet)
  {
  }

  lemma LocalRetryStep(c: Cell, now: int)
    requires c.view == Exec(SpoolIntent, Returned(Failed(true, false))) && !c.row.cloud && c.row.state == SpoolIntent
    ensures Leads(c, Execute(RecordLocalRetry(now)), Logged(c.row, FailedRetryable).(
      nextAttempt := Some(now + LOCAL_RETRY_DELAY_MS)), Quiet)
  {
  }

  lemma FailureStep(c: Cell, o: Outcome)
    requires c.view == Exec(SpoolIntent, Returned(o)) && o.Failed? && !RetriesLocally(o, c.row.cloud)
    ensures Leads(c, Execute(RecordFailure), Logged(c.row, FailureState(o)), Quiet)
  {
  }

  lemma ExpireStep(c: Cell, now: int)
    requires c.view.Quiet? && WaitingPastDeadline(c.row, now)
    ensures Leads(c, Outside(Expire(now)), Logged(c.row, Expired), Quiet)
  {
  }

  function Planned(snap: JobState, plan: Plan): View {
    if plan.Leave? then Quiet else Settling(snap, plan)
  }

  lemma ObserveStep(c: Cell, r: Report, now: int)
    requires c.view.Due? && c.view.now == now && c.row.nativeId.Some? && c.row.recon.Some?
    requires FromCancel(r) <==> c.view.cancelFlag || c.view.snap == CancelRequested
    ensures Leads(c, Reconcile(Observe(r, now)), c.row.(recon := Some(AttemptSchedule(c.row.recon.value, now))),
                  Planned(c.view.snap, PlanFor(c.view.snap, r, now >= c.view.deadline)))
  {
  }

  lemma OrphanStep(c: Cell)
    requires c.view.Due? && c.row.nativeId.None?
    ensures Leads(c, Reconcile(Orphan), c.row, Settling(c.view.snap, Settle(DeliveryUncertain)))
  {
  }

  lemma MoveStep(c: Cell, from: JobState, to: JobState)
    requires c.view == Settling(from, Move(to)) && CanTransition(from, to)
    ensures Leads(c, Reconcile(Advance), Logged(c.row, to), Quiet)
  {
  }

  lemma SettleStep(c: Cell, from: JobState, to: JobState)
    requires c.view == Settling(from, Settle(to)) && CanTransition(from, to)
    ensures Leads(c, Reconcile(Advance), Logged(c.row, to), Finishing)
  {
  }

  lemma FinishStep(c: Cell)
    requires c.view.Finishing?
    ensures Leads(c, Reconcile(Finish), c.row.(recon := None), Quiet)
  {
  }

  lemma OnJobStep(w: World, j: JobId, s: JobStep)
    requires j in w && CellEnabled(w[j], s)
    ensures Enabled(w, OnJob(j, s)) && Apply(w, OnJob(j, s)) == w[j := CellApply(w[j], s)]
  {
    hide CellEnabled, CellApply;
  }

  /** A selection changes nothing but views. */
  predicate OnlyViews(w: World, w': World) {
    w'.Keys == w.Keys && forall j | j in w :: w'[j].row == w[j].row && w'[j].route == w[j].route
  }

  lemma SelectStep(w: World, now: int)
    requires AllQuiet(w)
    ensures Enabled(w, Select(now)) && OnlyViews(w, Apply(w, Select(now)))
    ensures forall j | j in w ::
      Apply(w, Select(now))[j].view == if IsHead(w, j, now) then Head(w[j].row.state) else w[j].view
  {
    hide IsHead;
  }

  lemma SelectDueStep(w: World, now: int, chosen: set<JobId>)
    requires AllQuiet(w) && forall j | j in chosen :: j in w && IsDue(w[j].row, now)
    ensures Enabled(w, SelectDue(now, chosen)) && OnlyViews(w, Apply(w, SelectDue(now, chosen)))
    ensures forall j | j in w ::
      Apply(w, SelectDue(now, chosen))[j].view == if j in chosen then DueView(w[j].row, now) else w[j].view
  {
    hide IsDue, DueView;
  }

  function AcceptanceOf(j: JobId, facts: JobFacts, order: nat): Action {
    Accept(j, facts.printer, order, facts.pdf, facts.cloud, facts.routed, facts.expires)
  }

  lemma AcceptStep(w: World, j: JobId, facts: JobFacts, order: nat)
    requires j !in w && forall k | k in w && w[k].row.printer == facts.printer :: w[k].row.order < order
    ensures Enabled(w, AcceptanceOf(j, facts, order))
    ensures Apply(w, AcceptanceOf(j, facts, order)) == w[j := NewCell(AcceptanceOf(j, facts, order))]
    ensures var c := NewCell(AcceptanceOf(j, facts, order));
      c.view.Quiet? && c.route == NO_ROUTE && c.row == QueuedRow(facts, order)
  {
  }

  class Engine {
    const store: Store
    const coordinator: Coordinator
    ghost var acts: seq<Action>
    ghost var world: World

    /** `acts` is a run of the protocol, `world` is where it leads, and the stored rows
        and routes are those of that world. */
    ghost predicate Valid()
      reads this, store, coordinator
    {
      && store.Valid() && Legal(acts) && world == Run(acts) && Agrees() && RoutesAgree()
    }

    ghost predicate Agrees()
      reads this, store
    {
      world.Keys == store.rows.Keys && forall j | j in store.rows :: world[j].row == store.rows[j]
    }

    /** Only jobs of the store have routes. */
    ghost predicate RoutesAgree()
      reads this, coordinator
    {
      && (forall j | j in world :: world[j].route == coordinator.RouteOf(j))
      && (forall j | j in coordinator.routes :: j in world)
    }

    constructor ()
      ensures Valid() && fresh(store) && fresh(coordinator) && acts == [] && AllQuiet(world)
    {
      store := new Store();
      coordinator := new Coordinator();
      acts, world := [], map[];
    }

    ghost method Did(a: Action)
      requires Legal(acts) && world == Run(acts) && Enabled(world, a)
      modifies this`acts, this`world
      ensures acts == old(acts) + [a] && Legal(acts) && world == Run(acts) && world == Apply(old(world), a)
    {
      assert (acts + [a])[..|acts|] == acts;
      acts, world := acts + [a], Apply(world, a);
    }

    /** Job j is stored as `row`, and the engine is at `view` with it. */
    ghost predicate At(j: JobId, row: Row, view: View)
      reads this, store
    {
      j in store.rows && j in world && store.rows[j] == row && world[j].row == row && world[j].view == view
    }

    /** A step of job j whose store write, if any, has just happened. */
    ghost method Stepped(j: JobId, s: JobStep, row: Row, view: View)
      requires store.Valid() && Legal(acts) && world == Run(acts)
      requires j in world && Leads(world[j], s, row, view)
      requires world.Keys == store.rows.Keys && store.rows[j] == row && RoutesAgree()
      requires forall k | k in store.rows && k != j :: world[k].row == store.rows[k]
      modifies this`acts, this`world
      ensures Valid() && acts == old(acts) + [OnJob(j, s)]
      ensures OthersKept(old(world), world, j) && At(j, row, view) && world[j] == CellApply(old(world)[j], s)
    {
      hide Legal, Run, Enabled, Apply, CellEnabled, CellApply;
      OnJobStep(world, j, s);
      Did(OnJob(j, s));
    }

    /** A step of job j whose coordinator write has just happened. */
    ghost method Routed(j: JobId, s: JobStep, route: Route, view: View)
      requires store.Valid() && Legal(acts) && world == Run(acts) && Agrees()
      requires j in world && LeadsRoute(world[j], s, route, view) && coordinator.RouteOf(j) == route
      requires forall k | k in world && k != j :: world[k].route == coordinator.RouteOf(k)
      requires forall k | k in coordinator.routes :: k in world
      modifies this`acts, this`world
      ensures Valid() && acts == old(acts) + [OnJob(j, s)]
      ensures OthersKept(old(world), world, j) && At(j, old(world)[j].row, view) &&
        world[j] == CellApply(old(world)[j], s)
    {
      hide Legal, Run, Enabled, Apply, CellEnabled, CellApply;
      OnJobStep(world, j, s);
      Did(OnJob(j, s));
    }

    /** A step of job j that writes nothing. */
    ghost method Note(j: JobId, s: JobStep, row: Row, view: View)
      requires Valid() && j in store.rows && store.rows[j] == row && Leads(world[j], s, row, view)
      modifies this`acts, this`world
      ensures Valid() && acts == old(acts) + [OnJob(j, s)]
      ensures OthersKept(old(world), world, j) && At(j, row, view) && world[j] == CellApply(old(world)[j], s)
    {
      hide Legal, Run;
      Stepped(j, s, row, view);
    }

    /** A job whose acceptance has just been stored. */
    ghost method Joined(j: JobId, facts: JobFacts, order: nat, before: map<JobId, Row>)
      requires store.Valid() && Legal(acts) && world == Run(acts) && RoutesAgree()
      requires world.Keys == before.Keys && forall k | k in before :: world[k].row == before[k]
      requires j !in before && store.rows == before[j := QueuedRow(facts, order)]
      requires forall k | k in before && before[k].printer == facts.printer :: before[k].order < order
      modifies this`acts, this`world
      ensures Valid() && old(acts) <= acts && world == old(world)[j := NewCell(AcceptanceOf(j, facts, order))]
    {
      hide Legal, Run, Enabled, Apply, NewCell, AcceptanceOf, QueuedRow;
      AcceptStep(world, j, facts, order);
      Did(AcceptanceOf(j, facts, order));
    }

    method Accept(j: JobId, facts: JobFacts) returns (ok: bool)
      requires Valid()
      modifies this`acts, this`world, store
      ensures Valid() && old(acts) <= acts
      ensures ok ==> j in store.rows
      ensures ok && j !in old(store.rows) ==> world[j].view.Quiet? && store.rows[j].events == [QueuedLocal]
      ensures forall k | k in old(world) :: k in world && world[k] == old(world)[k]
      ensures old(AllQuiet(world)) ==> AllQuiet(world)
    {
      hide Legal, Run;
      ghost var before := store.rows;
      ok := store.AcceptJob(j, facts);
      if ok && j !in before {
        Joined(j, facts, store.rows[j].order, before);
      }
    }

    /** Checks the change against the table from the state the caller read, then
        appends the event. */
    method Transition(j: JobId, from: JobState, to: JobState, ghost s: JobStep, ghost row: Row, ghost view: View)
      returns (ok: bool)
      requires Valid() && j in store.rows && store.rows[j] == row
      requires CanTransition(from, to) ==> Leads(world[j], s, Logged(row, to), view)
      modifies this`acts, this`world, store`rows
      ensures Valid() && OthersKept(old(world), world, j)
      ensures ok ==> CanTransition(from, to) && acts == old(acts) + [OnJob(j, s)] && At(j, Logged(row, to), view)
      ensures !ok ==> acts == old(acts) && world == old(world) && store.rows == old(store.rows)
    {
      hide Legal, Run, CellEnabled, CellApply;
      if !CanTransition(from, to) { return false; }
      ok := store.AppendNextEvent(j, to);
      if ok { Stepped(j, s, Logged(row, to), view); }
    }

    method TransitionIfNeeded(j: JobId, from: JobState, to: JobState, ghost s: JobStep, ghost row: Row,
        ghost view: View)
      returns (ok: bool)
      requires Valid() && j in store.rows && store.rows[j] == row
      requires from != to && CanTransition(from, to) ==> Leads(world[j], s, Logged(row, to), view)
      modifies this`acts, this`world, store`rows
      ensures Valid() && OthersKept(old(world), world, j)
      ensures from == to ==> ok && acts == old(acts) && world == old(world) && store.rows == old(store.rows)
      ensures ok && from != to ==> CanTransition(from, to) && acts == old(acts) + [OnJob(j, s)]
      ensures ok && from != to ==> At(j, Logged(row, to), view)
      ensures !ok ==> acts == old(acts) && world == old(world) && store.rows == old(store.rows)
    {
      hide Legal, Run, CellEnabled, CellApply;
      if from == to { return true; }
      ok := Transition(j, from, to, s, row, view);
    }

    /** The clock, the executor and the decoder of the stored print options answer anything. */
    method UnixMs() returns (now: int) { now := *; }
    method OptionsValid() returns (valid: bool) { valid := *; }
    method NativeProfile() returns (ok: bool) { ok := *; }
    method NativeBindingCurrent() returns (ok: bool) { ok := *; }
    method NativeSubmit() returns (o: Outcome) { o := *; }
    method ObserveNative() returns (r: Option<NativeState>) { r := *; }
    method CancelNative() returns (ok: bool) { ok := *; }
    method RecordExecutorFailure() returns (ok: bool) { ok := *; }

    // -------------------------------------------------------------- execute_job

    method BeginExecution(job: LocalJob) returns (ok: bool)
      requires Valid() && At(job.id, job.row, Head(job.row.state))
      modifies this`acts, this`world, store`rows
      ensures Valid() && old(acts) <= acts && OthersKept(old(world), world, job.id)
      ensures ok ==> At(job.id, Begun(job.row), Exec(Preparing, Validating))
    {
      hide Valid, Legal, Run, CellEnabled, CellApply;
      var j, state := job.id, job.row.state;
      ghost var row := job.row;
      BeginStep(world[j]);
      Note(j, Execute(Begin), row, Exec(state, Starting));
      if state == FailedRetryable {
        if job.row.cloud { return false; }
        RequeueStep(world[j]);
        ok := Transition(j, state, QueuedLocal, Execute(Requeue), row, Exec(QueuedLocal, Starting));
        if !ok { return; }
        state, row := QueuedLocal, Logged(row, QueuedLocal);
      }
      if CanTransition(state, Preparing) { PrepareStep(world[j]); }
      ok := Transition(j, state, Preparing, Execute(Prepare), row, Exec(Preparing, Validating));
    }

    /** Stores `rendering` for a PDF, then `spool_intent`. */
    method PersistIntent(j: JobId, pdf: bool, ghost row: Row) returns (ok: bool)
      requires Valid() && At(j, row, Exec(Preparing, Validating)) && row.pdf == pdf
      modifies this`acts, this`world, store`rows
      ensures Valid() && old(acts) <= acts && OthersKept(old(world), world, j)
      ensures ok ==> At(j, Intent(row), Exec(SpoolIntent, Intending))
    {
      hide Valid, Legal, Run, CellEnabled, CellApply;
      ghost var stored := row;
      ValidatedStep(world[j]);
      Note(j, Execute(Validated), row, Exec(Preparing, Ready));
      if pdf {
        RenderStep(world[j]);
        ok := Transition(j, Preparing, Rendering, Execute(Render), row, Exec(Rendering, Ready));
        if !ok { return; }
        stored := Logged(row, Rendering);
      }
      IntendStep(world[j]);
      ok := Transition(j, if pdf then Rendering else Preparing, SpoolIntent, Execute(Intend), stored,
                       Exec(SpoolIntent, Intending));
    }

    method StoreAcceptance(j: JobId, native: string, ghost row: Row) returns (ok: bool)
      requires Valid() && At(j, row, Exec(SpoolIntent, Returned(Accepted(native)))) && row.state == SpoolIntent
      modifies this`acts, this`world, store`rows
      ensures Valid() && old(acts) <= acts && OthersKept(old(world), world, j)
      ensures ok ==> j in store.rows && At(j, store.rows[j], Quiet)
      ensures ok ==> store.rows[j].events == row.events + [AcceptedBySpooler]
    {
      hide Legal, Run, CellEnabled, CellApply;
      var now := UnixMs();
      ok := store.RecordNativeAcceptance(j, native, now);
      if ok {
        AcceptanceStep(world[j], native, now);
        Stepped(j, Execute(RecordAcceptance(now)), store.rows[j], Quiet);
      }
    }

    method StoreLocalRetry(j: JobId, ghost row: Row) returns (ok: bool)
      requires Valid() && At(j, row, Exec(SpoolIntent, Returned(Failed(true, false))))
      requires row.state == SpoolIntent && !row.cloud
      modifies this`acts, this`world, store`rows
      ensures Valid() && old(acts) <= acts && OthersKept(old(world), world, j)
      ensures ok ==> j in store.rows && At(j, store.rows[j], Quiet)
      ensures ok ==> store.rows[j].events == row.events + [FailedRetryable]
    {
      hide Legal, Run, CellEnabled, CellApply;
      var now := UnixMs();
      ok := store.RecordLocalRetryableFailure(j, now + LOCAL_RETRY_DELAY_MS);
      if ok {
        LocalRetryStep(world[j], now);
        Stepped(j, Execute(RecordLocalRetry(now)), store.rows[j], Quiet);
      }
    }

    /** Stores what the executor answered. */
    method RecordOutcome(j: JobId, cloud: bool, o: Outcome, ghost row: Row) returns (ok: bool)
      requires Valid() && At(j, row, Exec(SpoolIntent, Returned(o))) && row.cloud == cloud && row.state == SpoolIntent
      modifies this`acts, this`world, store`rows
      ensures Valid() && old(acts) <= acts && OthersKept(old(world), world, j)
      ensures ok ==> j in store.rows && At(j, store.rows[j], Quiet)
      ensures ok ==> store.rows[j].events == row.events + [Answered(o)]
      ensures ok ==> store.rows[j].events == row.events + [
        if o.Accepted? then AcceptedBySpooler
        else if o.handoffMayHaveSucceeded then DeliveryUncertain
        else if o.retryable then FailedRetryable else FailedTerminal]
    {
      hide Valid, Legal, Run, CellEnabled, CellApply;
      match o
      case Accepted(native) =>
        ok := StoreAcceptance(j, native, row);
      case Failed(retryable, may) =>
        ok := RecordExecutorFailure();
        if !ok { return; }
        var state := if may then DeliveryUncertain else if retryable then FailedRetryable else FailedTerminal;
        if retryable && !may && !cloud {
          ok := StoreLocalRetry(j, row);
        } else {
          FailureStep(world[j], o);
          ok := Transition(j, SpoolIntent, state, Execute(RecordFailure), row, Quiet);
        }
    }

    /** The engine is inside the executor with job j. */
    ghost predicate Calling(j: JobId, row: Row, point: Point)
      reads this, store
    {
      At(j, row, Exec(SpoolIntent, point)) && world[j].hist.submits != []
    }

    /** `submit` answers. */
    ghost method Returns(j: JobId, row: Row, point: Point, o: Outcome)
      requires Valid() && Calling(j, row, point) && MayReturn(point, world[j].route, o)
      modifies this`acts, this`world
      ensures Valid() && old(acts) <= acts && OthersKept(old(world), world, j) &&
        At(j, row, Exec(SpoolIntent, Returned(o)))
    {
      hide Valid, Legal, Run, CellEnabled, CellApply, MayReturn;
      ReturnStep(world[j], o);
      Note(j, Execute(SubmitReturn(o)), row, Exec(SpoolIntent, Returned(o)));
    }

    /** Reserves the route; a write reported as failed may have happened. */
    method ReserveRoute(j: JobId, ghost row: Row) returns (r: Reservation, ghost point: Point)
      requires Valid() && Calling(j, row, Submitting)
      modifies this`acts, this`world, coordinator
      ensures Valid() && old(acts) <= acts && OthersKept(old(world), world, j) && Calling(j, row, point)
      ensures r.Granted? ==> point == Reserved
      ensures point == Submitting || point == Reserved
      ensures r.AlreadyCrossed? ==> point == Submitting && Barred(world[j].route)
    {
      hide Legal, Run, CellEnabled, CellApply, Barred;
      ghost var written;
      r, written := coordinator.Reserve(j);
      point := Submitting;
      if written {
        ReserveStep(world[j]);
        Routed(j, Execute(Reserve), coordinator.RouteOf(j), Exec(SpoolIntent, Reserved));
        point := Reserved;
      }
    }

    /** Records the native answer; again a write reported as failed may have happened. */
    method RecordHandoff(j: JobId, native: Outcome, ghost row: Row) returns (ok: bool, ghost point: Point)
      requires Valid() && Calling(j, row, Reserved)
      modifies this`acts, this`world, coordinator
      ensures Valid() && old(acts) <= acts && OthersKept(old(world), world, j) && Calling(j, row, point)
      ensures ok ==> point == Recorded(native)
      ensures point == Reserved || point == Recorded(native)
    {
      hide Legal, Run, CellEnabled, CellApply;
      var now := UnixMs();
      ghost var written;
      ok, written := coordinator.Finish(j, native, now);
      point := Reserved;
      if written {
        RecordStep(world[j], native, now);
        Routed(j, Execute(Record(native, now)), coordinator.RouteOf(j), Exec(SpoolIntent, Recorded(native)));
        point := Recorded(native);
      }
    }

    /** The executor's `submit`: nothing reaches the spooler without a reservation, and
        whatever it answers is on record before the queue learns of it. */
    method Submit(j: JobId, ghost row: Row) returns (o: Outcome)
      requires Valid() && Calling(j, row, Submitting)
      modifies this`acts, this`world, coordinator
      ensures Valid() && old(acts) <= acts && OthersKept(old(world), world, j)
      ensures At(j, row, Exec(SpoolIntent, Returned(o)))
    {
      hide Valid, Legal, Run, CellEnabled, CellApply;
      var bound := NativeBindingCurrent();
      if !bound {
        o := Failed(false, false);
        Returns(j, row, Submitting, o);
        return;
      }
      ghost var point;
      var r;
      r, point := ReserveRoute(j, row);
      var fenced := NativeBindingCurrent();
      if !r.Granted? || !fenced {
        o := if r.AlreadyCrossed? then Failed(false, true) else Failed(true, false);
        Returns(j, row, point, o);
        return;
      }
      o := SubmitReserved(j, row);
    }

    method SubmitReserved(j: JobId, ghost row: Row) returns (o: Outcome)
      requires Valid() && Calling(j, row, Reserved)
      modifies this`acts, this`world, coordinator
      ensures Valid() && old(acts) <= acts && OthersKept(old(world), world, j)
      ensures At(j, row, Exec(SpoolIntent, Returned(o)))
    {
      hide Valid, Legal, Run, CellEnabled, CellApply;
      var native := NativeSubmit();
      ghost var point;
      var recorded;
      recorded, point := RecordHandoff(j, native, row);
      o := if recorded then native else Failed(false, !SafeFailure(native));
      Returns(j, row, point, o);
    }

    /** Calls the executor and stores its answer. */
    method SubmitJob(j: JobId, cloud: bool, ghost row: Row) returns (ok: bool, o: Outcome)
      requires Valid() && At(j, row, Exec(SpoolIntent, Intending)) && row.cloud == cloud && row.state == SpoolIntent
      modifies this`acts, this`world, store`rows, coordinator
      ensures Valid() && old(acts) <= acts && OthersKept(old(world), world, j)
      ensures ok ==> j in store.rows && At(j, store.rows[j], Quiet)
      ensures ok ==> store.rows[j].events == row.events + [Answered(o)]
    {
      hide Valid, Legal, Run, CellEnabled, CellApply;
      CallStep(world[j]);
      Note(j, Execute(SubmitStart), row, Exec(SpoolIntent, Submitting));
      o := Submit(j, row);
      ok := RecordOutcome(j, cloud, o, row);
    }

    method ExecuteJob(job: LocalJob) returns (ok: bool, e: Execution)
      requires Valid() && At(job.id, job.row, Head(job.row.state))
      modifies this`acts, this`world, store`rows, coordinator
      ensures Valid() && old(acts) <= acts && OthersKept(old(world), world, job.id)
      ensures ok ==> job.id in store.rows && At(job.id, store.rows[job.id], Quiet) && !e.Unfinished?
      ensures ok ==> store.rows[job.id].events == job.row.events + ExecutionEvents(job.row, e)
    {
      hide Valid, Legal, Run, CellEnabled, CellApply, ExecutionEvents, Begun, Intent;
      e := Unfinished;
      var j := job.id;
      ok := BeginExecution(job);
      if !ok { return; }
      ghost var row := Begun(job.row);
      var valid := OptionsValid();
      if !valid {
        RejectStep(world[j]);
        EventsOfExecution(job.row, Failed(false, false));
        ok := Transition(j, Preparing, FailedTerminal, Execute(Reject), row, Quiet);
        e := Rejected;
        return;
      }
      ok := PersistIntent(j, job.row.pdf, row);
      if !ok { return; }
      ok := NativeProfile();
      if !ok { return; }
      var o;
      ok, o := SubmitJob(j, job.row.cloud, Intent(row));
      EventsOfExecution(job.row, o);
      e := Submitted(o);
    }

    // -------------------------------------------------------------- reconcile_item

    /** `record_reconciliation_attempt`, with what the report means for the job. */
    method RecordAttempt(item: LocalJob, r: Report, now: int) returns (ok: bool)
      requires Valid() && IsDue(item.row, now) && At(item.id, item.row, DueView(item.row, now))
      requires item.row.nativeId.Some?
      requires FromCancel(r) <==> item.row.recon.value.cancelRequested || item.row.state == CancelRequested
      modifies this`acts, this`world, store`rows
      ensures Valid() && old(acts) <= acts && OthersKept(old(world), world, item.id)
      ensures ok ==> At(item.id, Attempted(item.row, now), Planned(item.row.state, PlanOf(item.row, r, now)))
    {
      hide Legal, Run, CellEnabled, CellApply, PlanFor;
      var j := item.id;
      ok := store.RecordReconciliationAttempt(j, now);
      if ok {
        ObserveStep(world[j], r, now);
        Stepped(j, Reconcile(Observe(r, now)), Attempted(item.row, now),
          Planned(item.row.state, PlanOf(item.row, r, now)));
      }
    }

    /** A transition that leaves the job with the spooler. */
    method MoveTo(item: LocalJob, to: JobState, ghost row: Row) returns (ok: bool)
      requires Valid() && At(item.id, row, Planned(item.row.state, if item.row.state == to then Leave else Move(to)))
      modifies this`acts, this`world, store`rows
      ensures Valid() && old(acts) <= acts && OthersKept(old(world), world, item.id)
      ensures ok ==> At(item.id, if item.row.state == to then row else Logged(row, to), Quiet)
    {
      hide Valid, Legal, Run, CellEnabled, CellApply;
      if item.row.state != to && CanTransition(item.row.state, to) {
        MoveStep(world[item.id], item.row.state, to);
      }
      ok := TransitionIfNeeded(item.id, item.row.state, to, Reconcile(Advance), row, Quiet);
    }

    /** A final state, then the end of reconciliation. */
    method SettleAs(item: LocalJob, to: JobState, ghost row: Row) returns (ok: bool)
      requires Valid() && item.row.state != to && At(item.id, row, Settling(item.row.state, Settle(to)))
      modifies this`acts, this`world, store`rows
      ensures Valid() && old(acts) <= acts && OthersKept(old(world), world, item.id)
      ensures ok ==> At(item.id, Logged(row, to).(recon := None), Quiet)
    {
      hide Valid, Legal, Run, CellEnabled, CellApply;
      var j := item.id;
      if CanTransition(item.row.state, to) {
        SettleStep(world[j], item.row.state, to);
      }
      ok := TransitionIfNeeded(j, item.row.state, to, Reconcile(Advance), row, Finishing);
      if !ok { return; }
      ok := DropSchedule(j, Logged(row, to));
    }

    method DropSchedule(j: JobId, ghost row: Row) returns (ok: bool)
      requires Valid() && At(j, row, Finishing)
      modifies this`acts, this`world, store`rows
      ensures Valid() && old(acts) <= acts && OthersKept(old(world), world, j)
      ensures ok ==> At(j, row.(recon := None), Quiet)
    {
      hide Legal, Run, CellEnabled, CellApply;
      FinishStep(world[j]);
      ok := store.FinishReconciliation(j);
      if ok {
        Stepped(j, Reconcile(Finish), row.(recon := None), Quiet);
      }
    }

    /** Reports that leave the job with the spooler. */
    method ApplyProgress(item: LocalJob, native: NativeState, ghost row: Row) returns (ok: bool)
      requires Valid() && (native.NativeQueued? || native.NativePrinting? || native.NativeBlocked?)
      requires At(item.id, row, Planned(item.row.state, PlanFor(item.row.state, Seen(native), false)))
      modifies this`acts, this`world, store`rows
      ensures Valid() && old(acts) <= acts && OthersKept(old(world), world, item.id)
      ensures ok ==> At(item.id, Progressed(row, PlanFor(item.row.state, Seen(native), false)), Quiet)
    {
      hide Valid, Legal, Run, CellEnabled, CellApply;
      var state := item.row.state;
      ok := true;
      if native.NativeQueued? {
        if state == AcceptedBySpooler || state == Blocked {
          ok := MoveTo(item, Spooling, row);
        }
      } else if native.NativePrinting? {
        if state == AcceptedBySpooler || state == Spooling || state == Blocked {
          ok := MoveTo(item, Printing, row);
        }
      } else {
        ok := MoveTo(item, Blocked, row);
      }
    }

    /** Reports that end the job. */
    method ApplyFinal(item: LocalJob, native: NativeState, ghost row: Row) returns (ok: bool)
      requires Valid() && !IsTerminal(item.row.state)
      requires native.NativeCompleted? || native.NativeFailed? || native.NativeCancelled?
      requires At(item.id, row, Planned(item.row.state, PlanFor(item.row.state, Seen(native), false)))
      modifies this`acts, this`world, store`rows
      ensures Valid() && old(acts) <= acts && OthersKept(old(world), world, item.id)
      ensures ok ==> At(item.id, Progressed(row, PlanFor(item.row.state, Seen(native), false)), Quiet)
    {
      hide Valid, Legal, Run, CellEnabled, CellApply;
      if native.NativeCompleted? {
        ok := SettleAs(item, CompletedReported, row);
      } else if native.NativeFailed? {
        ok := SettleAs(item, FailedTerminal, row);
      } else {
        ok := SettleAs(item, Cancelled, row);
      }
    }

    method ApplyNativeObservation(item: LocalJob, native: NativeState, now: int) returns (ok: bool)
      requires Valid() && IsDue(item.row, now) && At(item.id, item.row, DueView(item.row, now))
      requires item.row.nativeId.Some?
      requires !item.row.recon.value.cancelRequested && item.row.state != CancelRequested
      modifies this`acts, this`world, store`rows
      ensures Valid() && old(acts) <= acts && OthersKept(old(world), world, item.id)
      ensures ok ==> At(item.id, AsReported(item.row, Seen(native), now), Quiet)
    {
      hide Valid, Legal, Run, CellEnabled, CellApply, AsReported;
      ReconciledAsReported(item.row, Seen(native), now);
      ok := RecordAttempt(item, Seen(native), now);
      if !ok { return; }
      ghost var row := Attempted(item.row, now);
      if native.NativeCompleted? || native.NativeFailed? || native.NativeCancelled? {
        ok := ApplyFinal(item, native, row);
      } else if native.NativeMissing? || native.NativeUnknown? {
        if now >= item.row.recon.value.deadline {
          ok := SettleAs(item, DeliveryUncertain, row);
        }
      } else {
        ok := ApplyProgress(item, native, row);
      }
    }

    /** An attempt that learned nothing: uncertain once the deadline has passed. */
    method ReconcileInconclusive(item: LocalJob, r: Report, now: int) returns (ok: bool)
      requires Valid() && IsDue(item.row, now) && At(item.id, item.row, DueView(item.row, now))
      requires item.row.nativeId.Some? && (r.ObserveFailed? || r.CancelFailed?)
      requires FromCancel(r) <==> item.row.recon.value.cancelRequested || item.row.state == CancelRequested
      modifies this`acts, this`world, store`rows
      ensures Valid() && old(acts) <= acts && OthersKept(old(world), world, item.id)
      ensures ok ==> At(item.id, AsReported(item.row, r, now), Quiet)
    {
      hide Valid, Legal, Run, CellEnabled, CellApply, AsReported;
      ReconciledAsReported(item.row, r, now);
      ok := RecordAttempt(item, r, now);
      if !ok { return; }
      if now >= item.row.recon.value.deadline {
        ok := SettleAs(item, DeliveryUncertain, Attempted(item.row, now));
      }
    }

    method ReconcileCancellation(item: LocalJob, now: int) returns (ok: bool, r: Report)
      requires Valid() && IsDue(item.row, now) && At(item.id, item.row, DueView(item.row, now))
      requires item.row.nativeId.Some?
      requires item.row.recon.value.cancelRequested || item.row.state == CancelRequested
      modifies this`acts, this`world, store`rows
      ensures Valid() && old(acts) <= acts && OthersKept(old(world), world, item.id)
      ensures FromCancel(r)
      ensures ok ==> At(item.id, AsReported(item.row, r, now), Quiet)
    {
      hide Valid, Legal, Run, CellEnabled, CellApply, AsReported;
      ReconciledAsReported(item.row, CancelAccepted, now);
      var cancelled := CancelNative();
      if cancelled {
        r := CancelAccepted;
        ok := RecordAttempt(item, r, now);
        if !ok { return; }
        ok := SettleAs(item, Cancelled, Attempted(item.row, now));
      } else {
        r := CancelFailed;
        ok := ReconcileInconclusive(item, r, now);
      }
    }

    method ReconcileItem(item: LocalJob, now: int) returns (ok: bool, r: Report)
      requires Valid() && IsDue(item.row, now) && At(item.id, item.row, DueView(item.row, now))
      modifies this`acts, this`world, store`rows
      ensures Valid() && old(acts) <= acts && OthersKept(old(world), world, item.id)
      ensures ok ==> item.id in store.rows && At(item.id, store.rows[item.id], Quiet)
      ensures ok && item.row.nativeId.Some? ==> store.rows[item.id] == AsReported(item.row, r, now)
      ensures ok && item.row.nativeId.Some? ==> store.rows[item.id] == Reconciled(item.row, r, now)
      ensures ok && item.row.nativeId.Some? ==>
        (FromCancel(r) <==> item.row.recon.value.cancelRequested || item.row.state == CancelRequested)
    {
      hide Valid, Legal, Run, CellEnabled, CellApply, Reconciled, AsReported;
      r := ObserveFailed;
      if item.row.nativeId.None? {
        OrphanStep(world[item.id]);
        Note(item.id, Reconcile(Orphan), item.row, Settling(item.row.state, Settle(DeliveryUncertain)));
        ok := SettleAs(item, DeliveryUncertain, item.row);
        return;
      }
      if item.row.recon.value.cancelRequested || item.row.state == CancelRequested {
        ok, r := ReconcileCancellation(item, now);
        ReconciledAsReported(item.row, r, now);
        return;
      }
      var seen := ObserveNative();
      match seen
      case Some(native) =>
        r := Seen(native);
        ok := ApplyNativeObservation(item, native, now);
        ReconciledAsReported(item.row, r, now);
      case None =>
        ok := ReconcileInconclusive(item, r, now);
        ReconciledAsReported(item.row, r, now);
    }

    // -------------------------------------------------------------- run_once

    /** An error return: whatever the engine had in hand is forgotten. */
    ghost method GiveUp()
      requires Valid()
      modifies this`acts, this`world
      ensures Valid() && acts == old(acts) + [Crash] && AllQuiet(world)
    {
      hide Legal, Run;
      Did(Crash);
    }

    /** Jobs still to come are as they were read; every other job is quiet. */
    ghost predicate InHand(jobs: seq<LocalJob>, from: nat, now: int, due: bool)
      reads this, store
    {
      && from <= |jobs|
      && (forall i | from <= i < |jobs| ::
            At(jobs[i].id, jobs[i].row, if due then DueView(jobs[i].row, now) else Head(jobs[i].row.state)))
      && (forall k | k in world && (forall i | from <= i < |jobs| :: jobs[i].id != k) :: world[k].view.Quiet?)
    }

    lemma NextInHand(w: World, jobs: seq<LocalJob>, i: nat, now: int, due: bool)
      requires i < |jobs| && NoDuplicates(jobs) && Valid() && OthersKept(w, world, jobs[i].id)
      requires forall m | i < m < |jobs| ::
        && jobs[m].id in w && w[jobs[m].id].row == jobs[m].row
        && w[jobs[m].id].view == (if due then DueView(jobs[m].row, now) else Head(jobs[m].row.state))
      requires forall k | k in w && (forall m | i <= m < |jobs| :: jobs[m].id != k) :: w[k].view.Quiet?
      requires jobs[i].id in world && world[jobs[i].id].view.Quiet?
      ensures InHand(jobs, i + 1, now, due)
    {
      hide Legal, Run, RoutesAgree;
      forall k | k in world && (forall m | i + 1 <= m < |jobs| :: jobs[m].id != k)
        ensures world[k].view.Quiet?
      {
        assert k != jobs[i].id ==> forall m | i <= m < |jobs| :: jobs[m].id != k;
      }
    }

    method ExpireNext(job: LocalJob, now: int) returns (ok: bool)
      requires Valid() && AllQuiet(world) && WaitingPastDeadline(job.row, now)
      requires job.id in store.rows && store.rows[job.id] == job.row
      modifies this`acts, this`world, store`rows
      ensures Valid() && old(acts) <= acts && AllQuiet(world)
      ensures ok ==> store.rows == old(store.rows)[job.id := Logged(job.row, Expired)]
    {
      hide Legal, Run, CellEnabled, CellApply;
      ExpireStep(world[job.id], now);
      ok := store.AppendNextEvent(job.id, Expired);
      if ok {
        Stepped(job.id, Outside(Expire(now)), Logged(job.row, Expired), Quiet);
      }
    }

    /** Every waiting job past its expiry gets one `expired` event; no other job changes. */
    method ExpireWaiting(now: int) returns (ok: bool)
      requires Valid() && AllQuiet(world)
      modifies this`acts, this`world, store`rows
      ensures Valid() && old(acts) <= acts && AllQuiet(world)
      ensures ok ==> store.rows == AfterExpiry(old(store.rows), now)
      ensures ok ==> forall j | j in old(store.rows) ::
        var row := old(store.rows)[j];
        j in store.rows && store.rows[j] ==
          if (row.state == QueuedLocal || row.state == FailedRetryable) && row.expires.Some? && row.expires.value <= now
          then row.(state := Expired, events := row.events + [Expired]) else row
    {
      hide Valid, Legal, Run, CellEnabled, CellApply, Logged, AfterExpiry, WaitingPastDeadline;
      ok := true;
      ghost var rows := store.rows;
      var jobs := store.ExpiredWaiting(now);
      ExpiredWith(rows, jobs, now);
      assert jobs[..0] == [];
      for i := 0 to |jobs|
        invariant Valid() && old(acts) <= acts && AllQuiet(world) && ok
        invariant store.rows == WithExpired(rows, jobs[..i])
      {
        WithExpiredKeeps(rows, jobs, i);
        assert jobs[i] in jobs;
        ok := ExpireNext(jobs[i], now);
        if !ok { return; }
        assert jobs[..i + 1] == jobs[..i] + [jobs[i]];
      }
      assert jobs[..|jobs|] == jobs;
      ExpiresExactly(rows, now);
    }

    method SelectHeads(now: int) returns (heads: seq<LocalJob>)
      requires Valid() && AllQuiet(world)
      modifies this`acts, this`world
      ensures Valid() && acts == old(acts) + [Select(now)]
      ensures NoDuplicates(heads) && InHand(heads, 0, now, false)
      ensures forall j | j in store.rows :: RunnableHead(store.rows, j, now) <==> LocalJob(j, store.rows[j]) in heads
    {
      hide Legal, Run, Enabled, Apply, IsHead, RunnableHead;
      heads := store.RunnableHeads(now);
      forall j | j in world ensures IsHead(world, j, now) <==> RunnableHead(store.rows, j, now) {
        HeadsAgree(world, store.rows, j, now);
      }
      SelectStep(world, now);
      Did(Select(now));
    }

    method SelectDueJobs(now: int) returns (items: seq<LocalJob>)
      requires Valid() && AllQuiet(world)
      modifies this`acts, this`world
      ensures Valid() && old(acts) <= acts
      ensures NoDuplicates(items) && InHand(items, 0, now, true)
      ensures EarliestDue(store.rows, items, now, 32)
    {
      hide Legal, Run, Enabled, Apply, IsDue, DueView;
      items := store.DueReconciliations(now, 32);
      ghost var chosen := set i | 0 <= i < |items| :: items[i].id;
      SelectDueStep(world, now, chosen);
      Did(SelectDue(now, chosen));
    }

    /** Some of the listed jobs were reconciled; the rest are in hand. */
    ghost predicate ReconciledFirst(rows: map<JobId, Row>, items: seq<LocalJob>, reports: seq<Report>, now: int)
      reads this, store
    {
      NoDuplicates(items) && InHand(items, |reports|, now, true) &&
        ReconciledRows(rows, store.rows, items, reports, now)
    }

    method ReconcileNext(items: seq<LocalJob>, reports: seq<Report>, now: int, ghost rows: map<JobId, Row>)
      returns (ok: bool, r: Report)
      requires Valid() && ReconciledFirst(rows, items, reports, now) && |reports| < |items|
      modifies this`acts, this`world, store`rows
      ensures Valid() && old(acts) <= acts
      ensures ok ==> ReconciledFirst(rows, items, reports + [r], now)
    {
      hide Legal, Run, CellEnabled, CellApply, Reconciled, DueView, IsDue, RoutesAgree;
      ghost var w := world;
      ok, r := ReconcileItem(items[|reports|], now);
      if ok {
        NextInHand(w, items, |reports|, now, true);
      }
    }

    /** Reconciles the 32 jobs that fell due first, or all when there are fewer. */
    method ReconcileDue() returns (ok: bool, now: int, items: seq<LocalJob>, reports: seq<Report>)
      requires Valid() && AllQuiet(world)
      modifies this`acts, this`world, store`rows
      ensures Valid() && old(acts) <= acts && AllQuiet(world)
      ensures EarliestDue(old(store.rows), items, now, 32)
      ensures ok ==> |reports| == |items| && ReconciledFirst(old(store.rows), items, reports, now)
    {
      hide Valid, Legal, Run, CellEnabled, CellApply, Reconciled, IsDue, NoLater, DueView;
      ok, reports := true, [];
      now := UnixMs();
      items := SelectDueJobs(now);
      while |reports| < |items|
        invariant Valid() && old(acts) <= acts && ok && ReconciledFirst(old(store.rows), items, reports, now)
      {
        var r;
        ok, r := ReconcileNext(items, reports, now, old(store.rows));
        if !ok {
          GiveUp();
          return;
        }
        reports := reports + [r];
      }
    }

    /** Some of the heads were executed; the rest are in hand. */
    ghost predicate ExecutedFirst(heads: seq<LocalJob>, done: seq<Execution>, now: int)
      reads this, store
    {
      NoDuplicates(heads) && InHand(heads, |done|, now, false) && Executed(store.rows, heads, done)
    }

    method ExecuteNext(heads: seq<LocalJob>, done: seq<Execution>, now: int) returns (ok: bool, e: Execution)
      requires Valid() && ExecutedFirst(heads, done, now) && |done| < |heads|
      modifies this`acts, this`world, store`rows, coordinator
      ensures Valid() && old(acts) <= acts
      ensures ok ==> ExecutedFirst(heads, done + [e], now)
    {
      hide Legal, Run, CellEnabled, CellApply, ExecutionEvents, RoutesAgree, Executed;
      ghost var w, rows := world, store.rows;
      ok, e := ExecuteJob(heads[|done|]);
      if ok {
        NextInHand(w, heads, |done|, now, false);
        ExecutedNext(rows, store.rows, heads, done, e);
      }
    }

    /** Executes every runnable head, one execution each. */
    method ExecuteHeads(now: int) returns (ok: bool, heads: seq<LocalJob>, done: seq<Execution>)
      requires Valid() && AllQuiet(world)
      modifies this`acts, this`world, store`rows, coordinator
      ensures Valid() && old(acts) <= acts && AllQuiet(world)
      ensures forall j | j in old(store.rows) ::
        RunnableHead(old(store.rows), j, now) <==> LocalJob(j, old(store.rows)[j]) in heads
      ensures ok ==> |done| == |heads| && ExecutedFirst(heads, done, now)
    {
      hide Valid, Legal, Run, CellEnabled, CellApply, ExecutionEvents, RunnableHead;
      ok, done := true, [];
      heads := SelectHeads(now);
      while |done| < |heads|
        invariant Valid() && old(acts) <= acts && ok && ExecutedFirst(heads, done, now)
      {
        var e;
        ok, e := ExecuteNext(heads, done, now);
        if !ok {
          GiveUp();
          return;
        }
        done := done + [e];
      }
    }

    /** Expires waiting jobs, executes every runnable head once, then reconciles what
        is due. `mid` is what is stored between the last two. On an error it returns
        early; either way nothing is left in hand. */
    method RunOnce() returns (ok: bool, now: int, heads: seq<LocalJob>, done: seq<Execution>,
                              later: int, items: seq<LocalJob>, reports: seq<Report>, ghost mid: map<JobId, Row>)
      requires Valid() && AllQuiet(world)
      modifies this`acts, this`world, store`rows, coordinator
      ensures Valid() && old(acts) <= acts && AllQuiet(world)
      ensures ok ==> forall j | j in old(store.rows) ::
        RunnableHead(AfterExpiry(old(store.rows), now), j, now) <==>
        LocalJob(j, AfterExpiry(old(store.rows), now)[j]) in heads
      ensures ok ==> |done| == |heads| && Executed(mid, heads, done)
      ensures ok ==> |reports| == |items| && ReconciledRows(mid, store.rows, items, reports, later)
      ensures ok ==> EarliestDue(mid, items, later, 32)
    {
      hide Valid, Legal, Run, CellEnabled, CellApply, ExecutionEvents, RunnableHead, EarliestDue;
      heads, done, items, reports, later, mid := [], [], [], [], 0, map[];
      now := UnixMs();
      ok := ExpireWaiting(now);
      if !ok { return; }
      ok, heads, done := ExecuteHeads(now);
      if !ok { return; }
      mid := store.rows;
      ok, later, items, reports := ReconcileDue();
    }
  }
}
