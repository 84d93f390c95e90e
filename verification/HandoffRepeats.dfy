/** When recovery lets a local job be submitted again although nobody released it. */
module HandoffRepeats {
  import opened Options
  import opened JobStates
  import opened HandoffProtocol
  import opened HandoffSafety
  import opened HandoffRuns

  // ---------------------------------------------------------------- one attempt per printer

  predicate Attempting(s: JobState) {
    s.Preparing? || s.Rendering? || s.SpoolIntent?
  }

  predicate OneAttempt(w: World) {
    forall j, k | j in w && k in w && j != k && w[j].row.printer == w[k].row.printer ::
      !Attempting(w[j].row.state) || !Attempting(w[k].row.state)
  }

  /** Only a job in the batch can begin an attempt. */
  predicate AttemptFrame(c: Cell, c': Cell) {
    && c'.row.printer == c.row.printer
    && (Attempting(c'.row.state) && !Attempting(c.row.state) ==> InBatch(c.view))
  }

  lemma StoreOpAttemptFrame(c: Cell, s: StoreOp)
    requires StoreOpEnabled(c, s)
    ensures AttemptFrame(c, StoreOpApply(c, s))
  {
  }

  lemma ExecAttemptFrame(c: Cell, s: ExecStep)
    requires ExecEnabled(c, s)
    ensures AttemptFrame(c, ExecApply(c, s))
  {
    hide CanTransition, MayReturn;
  }

  lemma RouteOpAttemptFrame(c: Cell, s: RouteOp)
    requires RouteOpEnabled(c, s)
    ensures AttemptFrame(c, RouteOpApply(c, s))
  {
    hide Shows, Quarantines, Discards;
  }

  lemma ReconAttemptFrame(c: Cell, s: ReconStep)
    requires ViewInv(c) && ReconEnabled(c, s)
    ensures AttemptFrame(c, ReconApply(c, s))
  {
    hide CanTransition, PlanFor;
  }

  lemma StepAttemptFrame(c: Cell, s: JobStep)
    requires ViewInv(c) && CellEnabled(c, s)
    ensures AttemptFrame(c, CellApply(c, s))
  {
    match s
    case Outside(op) => StoreOpAttemptFrame(c, op);
    case Recover(rt) => RouteOpAttemptFrame(c, rt);
    case Execute(ex) => ExecAttemptFrame(c, ex);
    case Reconcile(rc) => ReconAttemptFrame(c, rc);
    hide StoreOpApply, RouteOpApply, ExecApply, ReconApply, StoreOpEnabled, RouteOpEnabled, ExecEnabled, ReconEnabled,
      AttemptFrame, ViewInv;
  }

  lemma StepKeepsOneAttempt(w: World, j: JobId, s: JobStep)
    requires PrinterInv(w) && OneAttempt(w) && Enabled(w, OnJob(j, s)) && ViewInv(w[j])
    ensures OneAttempt(Apply(w, OnJob(j, s)))
  {
    StepAttemptFrame(w[j], s);
    var c' := CellApply(w[j], s);
    assert Apply(w, OnJob(j, s)) == w[j := c'];
    hide CellApply, CellEnabled, ViewInv;
  }

  lemma ActionKeepsOneAttempt(w: World, a: Action)
    requires WorldInv(w) && OneAttempt(w) && Enabled(w, a)
    ensures OneAttempt(Apply(w, a))
  {
    if a.OnJob? {
      assert CellInv(w[a.j]);
      StepKeepsOneAttempt(w, a.j, a.step);
    }
    hide CellEnabled, CellApply, CellInv, IsHead, IsDue, CrashCell, PrinterInv;
  }

  /** No two jobs of a printer are between `preparing` and `spool_intent`. */
  lemma {:induction false} OneAttemptPerPrinter(acts: seq<Action>)
    requires Legal(acts)
    ensures OneAttempt(Run(acts))
  {
    if acts != [] {
      OneAttemptPerPrinter(acts[..|acts|-1]);
      RunsKeepInv(acts[..|acts|-1]);
      ActionKeepsOneAttempt(Run(acts[..|acts|-1]), acts[|acts|-1]);
    }
  }

  // ---------------------------------------------------------------- continuations

  predicate ReleasesJob(a: Action, j: JobId) {
    a.OnJob? && a.j == j && IsRelease(a.step)
  }

  predicate Unreleased(acts: seq<Action>, longer: seq<Action>, j: JobId) {
    Extends(acts, longer) && forall i | |acts| <= i < |longer| :: !ReleasesJob(longer[i], j)
  }

  /** `longer` continues `acts` without releasing `j`. */
  predicate Continues(acts: seq<Action>, longer: seq<Action>, j: JobId) {
    Legal(longer) && |acts| <= |longer| && Unreleased(acts, longer, j)
  }

  /** Some continuation without a release makes the job runnable again. */
  ghost predicate RunsAgain(acts: seq<Action>, j: JobId) {
    exists longer :: Continues(acts, longer, j) && j in Run(longer) && Run(longer)[j].row.state.FailedRetryable?
  }

  /** Some continuation without a release calls `submit` again. */
  ghost predicate CallsAgain(acts: seq<Action>, j: JobId) {
    exists longer :: Continues(acts, longer, j) && OnJob(j, Execute(SubmitStart)) in longer[|acts|..]
  }

  /** The attempt before was refused, its evidence is still there, and the cut-off call
      has not reserved the route. */
  predicate RefusedBefore(route: Route) {
    IsRefused(route) && !route.reserved
  }

  /** The job does not expire before the retry that the refusal calls for. */
  predicate RetriesInTime(c: Cell)
    requires IsRefused(c.route)
  {
    c.row.expires.Some? ==> c.row.expires.value > c.route.latest.value.at + LOCAL_RETRY_DELAY_MS
  }

  // ---------------------------------------------------------------- no way back

  predicate TooLate(row: Row) {
    && row.state.FailedRetryable? && row.nextAttempt.Some?
    && row.expires.Some? && row.expires.value <= row.nextAttempt.value
  }

  /** Only a release brings the job back; with `late`, it may be retryable for no use. */
  predicate Shut(c: Cell, late: bool) {
    && !c.row.cloud && !InBatch(c.view)
    && (|| c.row.nativeId.Some? || IsTerminal(c.row.state) || c.row.state.CancelRequested?
        || (late && TooLate(c.row))
        || (c.row.state.SpoolIntent? && c.view.Quiet? &&
            !(RefusedBefore(c.route) && (late ==> RetriesInTime(c)))))
  }

  lemma StoreOpKeepsShut(c: Cell, s: StoreOp, late: bool)
    requires CellInv(c) && Shut(c, late) && StoreOpEnabled(c, s)
    ensures Shut(StoreOpApply(c, s), late)
  {
    hide SubmitInv, TraceInv, CountInv;
  }

  lemma RouteOpKeepsShut(c: Cell, s: RouteOp, late: bool)
    requires CellInv(c) && Shut(c, late) && RouteOpEnabled(c, s) && !s.Release?
    ensures Shut(RouteOpApply(c, s), late)
  {
    hide SubmitInv, TraceInv, CountInv, Quarantines, ScheduleInv, ViewInv;
  }

  lemma ReconKeepsShut(c: Cell, s: ReconStep, late: bool)
    requires CellInv(c) && Shut(c, late) && ReconEnabled(c, s)
    ensures Shut(ReconApply(c, s), late)
  {
    hide SubmitInv, TraceInv, CountInv, PlanFor, CanTransition;
  }

  lemma StepKeepsShut(c: Cell, s: JobStep, late: bool)
    requires CellInv(c) && Shut(c, late) && CellEnabled(c, s) && !IsRelease(s)
    ensures Shut(CellApply(c, s), late) && !IsSubmit(s)
  {
    match s
    case Outside(op) => StoreOpKeepsShut(c, op, late);
    case Recover(rt) => RouteOpKeepsShut(c, rt, late);
    case Execute(ex) => assert false;
    case Reconcile(rc) => ReconKeepsShut(c, rc, late);
    hide CellInv, StoreOpApply, RouteOpApply, ReconApply, StoreOpEnabled, RouteOpEnabled, ReconEnabled;
  }

  /** A shut job is not picked for execution. */
  lemma ShutIsNoHead(w: World, j: JobId, late: bool, now: int)
    requires j in w && CellInv(w[j]) && Shut(w[j], late)
    ensures !IsHead(w, j, now)
  {
    hide SubmitInv, TraceInv, CountInv, ScheduleInv, ViewInv;
  }

  lemma ActionKeepsShut(w: World, a: Action, j: JobId, late: bool)
    requires j in w && CellInv(w[j]) && Shut(w[j], late) && Enabled(w, a) && !ReleasesJob(a, j)
    ensures j in Apply(w, a) && Shut(Apply(w, a)[j], late) && a != OnJob(j, Execute(SubmitStart))
  {
    if a.OnJob? && a.j == j { StepKeepsShut(w[j], a.step, late); }
    if a.Select? { ShutIsNoHead(w, j, late, a.now); }
    hide CellEnabled, CellApply, CellInv, IsHead, IsDue;
  }

  lemma {:induction false} StaysShut(acts: seq<Action>, longer: seq<Action>, j: JobId, late: bool)
    requires Legal(acts) && j in Run(acts) && Shut(Run(acts)[j], late) && Continues(acts, longer, j)
    ensures j in Run(longer) && Shut(Run(longer)[j], late) && OnJob(j, Execute(SubmitStart)) !in longer[|acts|..]
    decreases |longer|
  {
    hide CellInv, Shut, Enabled, Apply, PrinterInv;
    if |longer| == |acts| {
      assert longer == acts;
    } else {
      var init, a := longer[..|longer|-1], longer[|longer|-1];
      assert init[..|acts|] == acts;
      StaysShut(acts, init, j, late);
      RunsKeepInv(init);
      assert longer[|acts|..] == init[|acts|..] + [a];
      assert !ReleasesJob(a, j);
      ActionKeepsShut(Run(init), a, j, late);
    }
  }

  lemma ShutIsNotRetryable(c: Cell)
    requires CellInv(c) && Shut(c, false)
    ensures !c.row.state.FailedRetryable?
  {
    hide SubmitInv, TraceInv, CountInv, ScheduleInv, ViewInv;
  }

  // ---------------------------------------------------------------- the way back

  lemma Continue(acts: seq<Action>, longer: seq<Action>, j: JobId, a: Action) returns (next: seq<Action>)
    requires Continues(acts, longer, j) && Enabled(Run(longer), a) && !ReleasesJob(a, j)
    ensures Continues(acts, next, j) && Run(next) == Apply(Run(longer), a) && next == longer + [a]
  {
    hide Legal, Run, Enabled, Apply, ReleasesJob;
    next := Longer(acts, longer, a);
    Then(longer, a);
    next := longer + [a];
  }

  /** A job of the same printer that is ahead of `j`. */
  predicate Obstructs(w: World, j: JobId, k: JobId)
    requires j in w && k in w
  {
    && k != j && w[k].row.printer == w[j].row.printer
    && (Waiting(w[k].row) || (InSpooler(w[k].row.state) && HoldsPrinter(w[k].row.state)))
  }

  function Obstacles(w: World, j: JobId): set<JobId>
    requires j in w
  {
    set k | k in w && Obstructs(w, j, k)
  }

  /** The only change is to `k`, which no longer stands in the way of its printer. */
  predicate ClearedOne(w: World, w': World, k: JobId) {
    && k in w && k in w' && w' == w[k := w'[k]] && w'[k].view.Quiet? && w'[k].row.printer == w[k].row.printer
    && (IsTerminal(w'[k].row.state) || w'[k].row.state.CancelRequested?)
  }

  lemma CrashOnlyOne(w: World, k: JobId, c: Cell)
    requires AllQuiet(w) && k in w
    ensures Apply(w[k := c], Crash) == w[k := CrashCell(c)]
  {
  }

  lemma DueOnlyOne(w: World, k: JobId, now: int)
    requires AllQuiet(w) && k in w && IsDue(w[k].row, now)
    ensures Enabled(w, SelectDue(now, {k}))
    ensures Apply(w, SelectDue(now, {k})) == w[k := w[k].(view := DueView(w[k].row, now))]
  {
  }

  /** A waiting job is cancelled. */
  lemma CancelOne(acts: seq<Action>, longer: seq<Action>, j: JobId, k: JobId) returns (next: seq<Action>)
    requires Continues(acts, longer, j) && AllQuiet(Run(longer)) && k in Run(longer) && Waiting(Run(longer)[k].row)
    ensures Continues(acts, next, j) && ClearedOne(Run(longer), Run(next), k)
  {
    hide Unreleased, Legal, Run;
    var w := Run(longer);
    next := Continue(acts, longer, j, OnJob(k, Outside(CancelQueued)));
    var c := CellApply(w[k], Outside(CancelQueued));
    CrashOnlyOne(w, k, c);
    next := Continue(acts, next, j, Crash);
  }

  /** The cell of a job that is due, observed as printed and settled. */
  predicate Completes(c: Cell, now: int, seen: Cell, done: Cell) {
    var due := c.(view := DueView(c.row, now));
    && ReconEnabled(due, Observe(Seen(NativeCompleted), now))
    && seen == ReconApply(due, Observe(Seen(NativeCompleted), now))
    && ReconEnabled(seen, Advance) && done == ReconApply(seen, Advance)
  }

  lemma CompletesCell(c: Cell) returns (now: int, seen: Cell, done: Cell)
    requires CellInv(c) && InSpooler(c.row.state) && HoldsPrinter(c.row.state)
    ensures IsDue(c.row, now) && Completes(c, now, seen, done)
    ensures done.row.state == CompletedReported && done.row.printer == c.row.printer
  {
    hide SubmitInv, TraceInv, CountInv, RouteInv, ViewInv;
    now := c.row.recon.value.nextObserve;
    seen := ReconApply(c.(view := DueView(c.row, now)), Observe(Seen(NativeCompleted), now));
    done := ReconApply(seen, Advance);
  }

  /** A job the spooler owns is observed as printed. */
  lemma CompleteOne(acts: seq<Action>, longer: seq<Action>, j: JobId, k: JobId) returns (next: seq<Action>)
    requires Continues(acts, longer, j) && AllQuiet(Run(longer)) && k in Run(longer) && CellInv(Run(longer)[k])
    requires InSpooler(Run(longer)[k].row.state) && HoldsPrinter(Run(longer)[k].row.state)
    ensures Continues(acts, next, j) && ClearedOne(Run(longer), Run(next), k)
  {
    hide Unreleased, Legal, Run, CellInv, IsDue, ReconEnabled, ReconApply, Apply, HoldsPrinter, InSpooler, AllQuiet;
    var w := Run(longer);
    var now, seen, done := CompletesCell(w[k]);
    DueOnlyOne(w, k, now);
    next := Continue(acts, longer, j, SelectDue(now, {k}));
    var due := w[k].(view := DueView(w[k].row, now));
    next := ContinueOne(acts, next, j, w, k, due, Reconcile(Observe(Seen(NativeCompleted), now)));
    next := ContinueOne(acts, next, j, w, k, seen, Reconcile(Advance));
    CrashOnlyOne(w, k, done);
    next := Continue(acts, next, j, Crash);
  }

  lemma ContinueOne(acts: seq<Action>, longer: seq<Action>, j: JobId, w: World, k: JobId, c: Cell, s: JobStep)
      returns (next: seq<Action>)
    requires Continues(acts, longer, j) && Run(longer) == w[k := c] && CellEnabled(c, s) && !IsRelease(s)
    ensures Continues(acts, next, j) && Run(next) == w[k := CellApply(c, s)] && next == longer + [OnJob(k, s)]
  {
    hide Unreleased, Legal, Run, CellEnabled, CellApply;
    next := Continue(acts, longer, j, OnJob(k, s));
    assert w[k := c][k := CellApply(c, s)] == w[k := CellApply(c, s)];
  }

  lemma ClearedObstacles(w: World, w': World, j: JobId, k: JobId)
    requires j in w && k in w && Obstructs(w, j, k) && ClearedOne(w, w', k)
    ensures Obstacles(w', j) == Obstacles(w, j) - {k}
  {
  }

  /** Nothing but the job itself keeps its printer from being served. */
  lemma {:induction false} ClearPrinter(acts: seq<Action>, longer: seq<Action>, j: JobId) returns (next: seq<Action>)
    requires Continues(acts, longer, j) && AllQuiet(Run(longer)) && j in Run(longer)
    ensures Continues(acts, next, j) && AllQuiet(Run(next)) && j in Run(next)
    ensures Run(next)[j] == Run(longer)[j] && Obstacles(Run(next), j) == {}
    decreases |Obstacles(Run(longer), j)|
  {
    hide Unreleased, Legal, Run, CellInv, Waiting, PrinterInv;
    next := longer;
    if Obstacles(Run(longer), j) != {} {
      var k :| k in Obstacles(Run(longer), j);
      RunsKeepInv(longer);
      if Waiting(Run(longer)[k].row) {
        next := CancelOne(acts, longer, j, k);
      } else {
        next := CompleteOne(acts, longer, j, k);
      }
      ClearedObstacles(Run(longer), Run(next), j, k);
      next := ClearPrinter(acts, next, j);
    }
  }

  /** With the printer clear, the recovered job is the next to be picked. */
  lemma RecoveredIsHead(w: World, j: JobId, c: Cell, now: int)
    requires j in w && OneAttempt(w) && Obstacles(w, j) == {} && w[j].row.state.SpoolIntent? && !c.row.cloud
    requires c.row.printer == w[j].row.printer && c.row.state.FailedRetryable? && c.row.nextAttempt == Some(now)
    requires c.row.expires.Some? ==> c.row.expires.value > now
    ensures IsHead(w[j := c], j, now)
  {
    forall k | k in w && k != j && w[k].row.printer == c.row.printer
      ensures !HoldsPrinter(w[k].row.state) && !Waiting(w[k].row)
    {
      assert k !in Obstacles(w, j);
    }
  }

  /** A picked retry is queued again and prepared. */
  lemma RetryPrepares(acts: seq<Action>, longer: seq<Action>, j: JobId, w: World, c: Cell)
      returns (next: seq<Action>, c': Cell)
    requires Continues(acts, longer, j) && Run(longer) == w[j := c] && c.view == Head(FailedRetryable) && !c.row.cloud
    ensures Continues(acts, next, j) && |next| > |longer| && Run(next) == w[j := c']
    ensures c'.view == Exec(Preparing, Validating)
  {
    hide Unreleased, Legal, Run, MayReturn;
    next := ContinueOne(acts, longer, j, w, j, c, Execute(Begin));
    c' := ExecApply(c, Begin);
    next := ContinueOne(acts, next, j, w, j, c', Execute(Requeue));
    c' := ExecApply(c', Requeue);
    next := ContinueOne(acts, next, j, w, j, c', Execute(Prepare));
    c' := ExecApply(c', Prepare);
  }

  /** A prepared job runs up to its `submit`. */
  lemma PreparedCalls(acts: seq<Action>, longer: seq<Action>, j: JobId, w: World, c: Cell) returns (next: seq<Action>)
    requires Continues(acts, longer, j) && Run(longer) == w[j := c] && c.view == Exec(Preparing, Validating)
    ensures Continues(acts, next, j) && |next| > |longer| && next[|next|-1] == OnJob(j, Execute(SubmitStart))
  {
    hide Unreleased, Legal, Run, MayReturn;
    next := ContinueOne(acts, longer, j, w, j, c, Execute(Validated));
    var c' := ExecApply(c, Validated);
    if c.row.pdf {
      next := ContinueOne(acts, next, j, w, j, c', Execute(Render));
      c' := ExecApply(c', Render);
    }
    next := ContinueOne(acts, next, j, w, j, c', Execute(Intend));
    c' := ExecApply(c', Intend);
    next := ContinueOne(acts, next, j, w, j, c', Execute(SubmitStart));
  }

  /** Once the printer is clear, the job is recovered and picked. */
  lemma RecoveredIsPicked(acts: seq<Action>, longer: seq<Action>, j: JobId) returns (next: seq<Action>, c': Cell)
    requires Continues(acts, longer, j) && AllQuiet(Run(longer)) && j in Run(longer) && Obstacles(Run(longer), j) == {}
    requires !Run(longer)[j].row.cloud && Run(longer)[j].row.state.SpoolIntent?
    requires RefusedBefore(Run(longer)[j].route) && RetriesInTime(Run(longer)[j])
    ensures Continues(acts, next, j) && Run(next) == Run(next)[j := c']
    ensures c'.view == Head(FailedRetryable) && !c'.row.cloud
  {
    hide Legal, Run, Unreleased, IsHead, Obstacles;
    var w, c := Run(longer), Run(longer)[j];
    OneAttemptPerPrinter(longer);
    var now := c.route.latest.value.at + LOCAL_RETRY_DELAY_MS;
    RecoveredIsHead(w, j, Projected(c), now);
    next := Continue(acts, longer, j, OnJob(j, Recover(Project)));
    next := Continue(acts, next, j, Select(now));
    c' := Run(next)[j];
  }

  /** Crash, clear the printer, recover, pick, execute. */
  lemma Repeated(acts: seq<Action>, j: JobId) returns (longer: seq<Action>)
    requires Legal(acts) && j in Run(acts) && Run(acts)[j].view.Quiet? && !Run(acts)[j].row.cloud
    requires Run(acts)[j].row.state.SpoolIntent? && RefusedBefore(Run(acts)[j].route) && RetriesInTime(Run(acts)[j])
    ensures Continues(acts, longer, j) && |longer| > |acts| && longer[|longer|-1] == OnJob(j, Execute(SubmitStart))
  {
    assert Continues(acts, acts, j);
    hide Legal, Run, Unreleased, Obstacles, RefusedBefore, RetriesInTime;
    longer := Continue(acts, acts, j, Crash);
    longer := ClearPrinter(acts, longer, j);
    var c;
    longer, c := RecoveredIsPicked(acts, longer, j);
    var w := Run(longer);
    longer, c := RetryPrepares(acts, longer, j, w, c);
    longer := PreparedCalls(acts, longer, j, w, c);
  }

  // ---------------------------------------------------------------- exact conditions

  /** Without a release, recovery makes a cut-off local attempt runnable again if and only
      if the attempt before was refused, that evidence has not been compacted, and the
      cut-off call had not reserved the route. */
  lemma RunsAgainIffRefused(acts: seq<Action>, j: JobId)
    requires Legal(acts) && j in Run(acts) && Run(acts)[j].view.Quiet?
    requires !Run(acts)[j].row.cloud && Run(acts)[j].row.state.SpoolIntent?
    ensures RunsAgain(acts, j) <==> RefusedBefore(Run(acts)[j].route)
  {
    var c := Run(acts)[j];
    if RefusedBefore(c.route) {
      assert Continues(acts, acts, j);
      var longer := Continue(acts, acts, j, OnJob(j, Recover(Project)));
      assert Run(longer)[j] == Projected(c);
    } else {
      assert Shut(c, false);
      hide Legal, Run, Shut, CellInv, PrinterInv, Unreleased;
      forall longer | Continues(acts, longer, j)
        ensures j in Run(longer) && !Run(longer)[j].row.state.FailedRetryable?
      {
        StaysShut(acts, longer, j, false);
            RunsKeepInv(longer);
        ShutIsNotRetryable(Run(longer)[j]);
      }
    }
  }

  /** It is then submitted again, whatever stands in front of it, if and only if it does
      not expire before the retry. */
  lemma CallsAgainIffRefusedInTime(acts: seq<Action>, j: JobId)
    requires Legal(acts) && j in Run(acts) && Run(acts)[j].view.Quiet?
    requires !Run(acts)[j].row.cloud && Run(acts)[j].row.state.SpoolIntent?
    ensures CallsAgain(acts, j) <==> RefusedBefore(Run(acts)[j].route) && RetriesInTime(Run(acts)[j])
  {
    var c := Run(acts)[j];
    if RefusedBefore(c.route) && RetriesInTime(c) {
      var longer := Repeated(acts, j);
      assert longer[|acts|..][|longer| - 1 - |acts|] == OnJob(j, Execute(SubmitStart));
    } else {
      assert Shut(c, true);
      hide Legal, Run, Shut, Unreleased;
      forall longer | Continues(acts, longer, j)
        ensures OnJob(j, Execute(SubmitStart)) !in longer[|acts|..]
      {
        StaysShut(acts, longer, j, true);
      }
    }
  }
}
