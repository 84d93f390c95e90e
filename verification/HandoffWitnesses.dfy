/** Concrete runs that reach the states the theorems of `HandoffRuns` warn about. */
module HandoffWitnesses {
  import opened Options
  import opened JobStates
  import opened HandoffProtocol
  import opened HandoffRuns

  /** How often the job was offered again. */
  function FurtherOffers(acts: seq<Action>): nat {
    Offers(Steps(acts, "job"))
  }

  lemma OffersAfter(acts: seq<Action>, a: Action)
    ensures FurtherOffers(acts + [a]) ==
      FurtherOffers(acts) + if a.OnJob? && a.j == "job" && IsOffer(a.step) then 1 else 0
  {
    assert (acts + [a])[..|acts|] == acts;
    var steps := Steps(acts, "job");
    assert Steps(acts + [a], "job") == steps + StepOf(a, "job");
    assert steps + [] == steps;
    if a.OnJob? && a.j == "job" { assert (steps + [a.step])[..|steps|] == steps; }
  }

  /** Extends a run whose world holds one job. */
  lemma Step(acts: seq<Action>, j: JobId, c: Cell, s: JobStep) returns (acts': seq<Action>)
    requires Legal(acts) && Run(acts) == map[j := c] && CellEnabled(c, s)
    ensures Legal(acts') && Run(acts') == map[j := CellApply(c, s)] && acts' == acts + [OnJob(j, s)]
    ensures !IsOffer(s) ==> FurtherOffers(acts') == FurtherOffers(acts)
  {
    OffersAfter(acts, OnJob(j, s));
    hide FurtherOffers;
    Then(acts, OnJob(j, s));
    acts' := acts + [OnJob(j, s)];
    assert Run(acts') == map[j := c][j := CellApply(c, s)];
  }

  lemma Crashed(acts: seq<Action>, j: JobId, c: Cell) returns (acts': seq<Action>)
    requires Legal(acts) && Run(acts) == map[j := c]
    ensures Legal(acts') && Run(acts') == map[j := CrashCell(c)] && acts' == acts + [Crash]
  {
    Then(acts, Crash);
    acts' := acts + [Crash];
  }

  function RawJob(): Action {
    Accept("job", "printer", 1, false, false, false, None)
  }

  /** The raw job at rest, ready to be executed at `now`. */
  predicate AtRest(c: Cell, now: int) {
    && c.view.Quiet? && Waiting(c.row) && !c.row.pdf && c.row.expires.None? && c.row.recon.None?
    && (c.row.nextAttempt.Some? ==> c.row.nextAttempt.value <= now)
  }

  lemma Queued() returns (acts: seq<Action>)
    ensures Legal(acts) && Run(acts) == map["job" := NewCell(RawJob())]
  {
    Then([], RawJob());
    acts := [] + [RawJob()];
  }

  lemma Picked(acts: seq<Action>, c: Cell, now: int) returns (acts': seq<Action>)
    requires Legal(acts) && Run(acts) == map["job" := c] && AtRest(c, now)
    ensures Legal(acts') && Run(acts') == map["job" := c.(view := Exec(c.row.state, Starting))]
    ensures FurtherOffers(acts') == FurtherOffers(acts)
  {
    hide Legal, Run, CanTransition, FurtherOffers;
    OffersAfter(acts, Select(now));
    Then(acts, Select(now));
    assert IsHead(Run(acts), "job", now);
    acts' := acts + [Select(now)];
    var c' := c.(view := Head(c.row.state));
    assert Run(acts') == map["job" := c'];
    acts' := Step(acts', "job", c', Execute(Begin));
  }

  /** The job is picked and executed up to `preparing`. */
  lemma Prepared(acts: seq<Action>, c: Cell, now: int) returns (acts': seq<Action>, c': Cell)
    requires Legal(acts) && Run(acts) == map["job" := c] && AtRest(c, now)
    ensures Legal(acts') && Run(acts') == map["job" := c']
    ensures c'.view == Exec(Preparing, Validating) && c'.route == c.route && c'.row.recon.None?
    ensures c'.row.cloud == c.row.cloud && !c'.row.pdf && c'.row.expires.None?
    ensures FurtherOffers(acts') == FurtherOffers(acts)
    ensures c'.hist.submits == c.hist.submits && c'.hist.releases == c.hist.releases && c'.row.state == Preparing
  {
    hide Legal, Run, IsHead, FurtherOffers;
    acts' := Picked(acts, c, now);
    c' := c.(view := Exec(c.row.state, Starting));
    if c.row.state == FailedRetryable {
      acts' := Step(acts', "job", c', Execute(Requeue));
      c' := ExecApply(c', Requeue);
    }
    acts' := Step(acts', "job", c', Execute(Prepare));
    c' := ExecApply(c', Prepare);
  }

  /** The job is executed until its spool intent is stored. */
  lemma Intended(acts: seq<Action>, c: Cell, now: int) returns (acts': seq<Action>, c': Cell)
    requires Legal(acts) && Run(acts) == map["job" := c] && AtRest(c, now)
    ensures Legal(acts') && Run(acts') == map["job" := c']
    ensures c'.view == Exec(SpoolIntent, Intending) && c'.route == c.route && c'.row.recon.None?
    ensures c'.row.cloud == c.row.cloud && !c'.row.pdf && c'.row.expires.None?
    ensures FurtherOffers(acts') == FurtherOffers(acts)
    ensures c'.hist.submits == c.hist.submits && c'.hist.releases == c.hist.releases && c'.row.state == SpoolIntent
  {
    hide Legal, Run, FurtherOffers;
    acts', c' := Prepared(acts, c, now);
    acts' := Step(acts', "job", c', Execute(Validated));
    c' := ExecApply(c', Validated);
    acts' := Step(acts', "job", c', Execute(Intend));
    c' := ExecApply(c', Intend);
  }

  lemma ReservedFor(acts: seq<Action>, c: Cell) returns (acts': seq<Action>, c': Cell)
    requires Legal(acts) && Run(acts) == map["job" := c] && c.view == Exec(SpoolIntent, Intending) && !Barred(c.route)
    ensures Legal(acts') && Run(acts') == map["job" := c']
    ensures c'.view == Exec(SpoolIntent, Reserved) && c'.row == c.row && c'.hist.releases == c.hist.releases
    ensures c'.hist.submits == c.hist.submits + [InFlight] && FurtherOffers(acts') == FurtherOffers(acts)
  {
    hide Legal, Run, FurtherOffers, CanTransition, MayReturn;
    acts' := Step(acts, "job", c, Execute(SubmitStart));
    c' := ExecApply(c, SubmitStart);
    acts' := Step(acts', "job", c', Execute(Reserve));
    c' := ExecApply(c', Reserve);
  }

  /** `submit` is called, reserves the route, and records and returns the answer `o`. */
  lemma Submitted(acts: seq<Action>, c: Cell, o: Outcome, now: int) returns (acts': seq<Action>, c': Cell)
    requires Legal(acts) && Run(acts) == map["job" := c] && c.view == Exec(SpoolIntent, Intending) && !Barred(c.route)
    ensures Legal(acts') && Run(acts') == map["job" := c']
    ensures c'.view == Exec(SpoolIntent, Returned(o)) && c'.row == c.row && c'.hist.releases == c.hist.releases
    ensures c'.route.latest == Some(EvidenceOf(o, now)) && c'.route.reserved == EvidenceOf(o, now).Unclear?
    ensures c'.hist.submits == c.hist.submits + [FateOf(o)] && FurtherOffers(acts') == FurtherOffers(acts)
  {
    hide Legal, Run, FurtherOffers, CanTransition;
    acts', c' := ReservedFor(acts, c);
    acts' := Step(acts', "job", c', Execute(Record(o, now)));
    c' := ExecApply(c', Record(o, now));
    acts' := Step(acts', "job", c', Execute(SubmitReturn(o)));
    c' := ExecApply(c', SubmitReturn(o));
  }

  /** A crash right after `preparing` is stored strands the job. */
  lemma CrashBeforeIntentStrands() returns (acts: seq<Action>)
    ensures Legal(acts) && "job" in Run(acts)
    ensures Stranded(Run(acts)["job"]) && Run(acts)["job"].row.state == Preparing
  {
    acts := Queued();
    var c;
    acts, c := Prepared(acts, NewCell(RawJob()), 0);
    acts := Crashed(acts, "job", c);
  }

  /** So does an error, or a crash, after `spool_intent` is stored and before the route is
      reserved. */
  lemma CrashBeforeReservationStrands() returns (acts: seq<Action>)
    ensures Legal(acts) && "job" in Run(acts)
    ensures Stranded(Run(acts)["job"]) && Run(acts)["job"].row.state == SpoolIntent
  {
    acts := Queued();
    var c;
    acts, c := Intended(acts, NewCell(RawJob()), 0);
    acts := Crashed(acts, "job", c);
  }

  /** A crash between the two writes of `cancel_before_handoff` strands the job. */
  lemma CrashInsideCancelStrands() returns (acts: seq<Action>)
    ensures Legal(acts) && "job" in Run(acts)
    ensures Stranded(Run(acts)["job"]) && Run(acts)["job"].row.state == CancelRequested
  {
    acts := Queued();
    var c := NewCell(RawJob());
    acts := Step(acts, "job", c, Outside(CancelQueued));
    acts := Crashed(acts, "job", CellApply(c, Outside(CancelQueued)));
  }

  /** A first attempt that was refused. */
  lemma RefusedOnce() returns (acts: seq<Action>, c: Cell)
    ensures Legal(acts) && Run(acts) == map["job" := c] && AtRest(c, 2_000) && !c.row.cloud
    ensures c.route.latest == Some(Refused(0)) && !c.route.reserved && c.hist.submits == [SafelyFailed] &&
      c.hist.releases == 0
  {
    hide Legal, Run, FurtherOffers, MayReturn;
    acts := Queued();
    acts, c := Intended(acts, NewCell(RawJob()), 0);
    acts, c := Submitted(acts, c, Failed(true, false), 0);
    acts := Step(acts, "job", c, Execute(RecordLocalRetry(0)));
    c := ExecApply(c, RecordLocalRetry(0));
  }

  /** A second call that is cut off before it reserves the route: recovery goes by the
      evidence of the first attempt and makes the job runnable again. */
  lemma CutOffThenRecovered() returns (acts: seq<Action>, c: Cell)
    ensures Legal(acts) && Run(acts) == map["job" := c] && AtRest(c, 2_000)
    ensures !Barred(c.route) && c.hist.submits == [SafelyFailed, Called] && c.hist.releases == 0
  {
    hide Legal, Run, FurtherOffers, MayReturn;
    acts, c := RefusedOnce();
    acts, c := Intended(acts, c, 2_000);
    acts := Step(acts, "job", c, Execute(SubmitStart));
    c := ExecApply(c, SubmitStart);
    acts := Crashed(acts, "job", c);
    c := CrashCell(c);
    acts := Step(acts, "job", c, Recover(Project));
    c := RouteOpApply(c, Project);
  }

  /** So without any release a job can be submitted again after a call that was cut off,
      but that call never reached the spooler. */
  lemma CutOffCallsAreRepeated() returns (acts: seq<Action>, c: Cell)
    ensures Legal(acts) && Run(acts) == map["job" := c]
    ensures c.hist.submits == [SafelyFailed, Called, HandedOff] && c.hist.releases == 0
  {
    hide Legal, Run, FurtherOffers;
    acts, c := CutOffThenRecovered();
    acts, c := Intended(acts, c, 2_000);
    acts, c := Submitted(acts, c, Accepted("n"), 2_000);
  }

  // ---------------------------------------------------------------- bounds that are reached

  lemma RiskyAfter(submits: seq<Submit>, s: Submit)
    ensures Risky(submits + [s]) == Risky(submits) + if IsRisky(s) then 1 else 0
  {
    assert (submits + [s])[..|submits|] == submits;
  }

  /** A local job whose handoff is unclear. */
  predicate UnclearCell(c: Cell) {
    && c.view.Quiet? && !c.row.cloud && !c.row.pdf && c.row.expires.None? && c.row.recon.None?
    && c.row.state.DeliveryUncertain? && IsUnclear(c.route) && c.route.reserved
  }

  lemma LeftUnclear(acts: seq<Action>, c: Cell) returns (acts': seq<Action>, c': Cell)
    requires Legal(acts) && Run(acts) == map["job" := c] && AtRest(c, 0) && !c.row.cloud && !Barred(c.route)
    ensures Legal(acts') && Run(acts') == map["job" := c'] && UnclearCell(c')
    ensures Risky(c'.hist.submits) == Risky(c.hist.submits) + 1 && c'.hist.releases == c.hist.releases
  {
    hide Legal, Run, Risky, FurtherOffers;
    acts', c' := Intended(acts, c, 0);
    acts', c' := Submitted(acts', c', Failed(false, true), 0);
    RiskyAfter(c.hist.submits, MayHaveHandedOff);
    acts' := Step(acts', "job", c', Execute(RecordFailure));
    c' := ExecApply(c', RecordFailure);
  }

  lemma ReleasedToRest(acts: seq<Action>, c: Cell) returns (acts': seq<Action>, c': Cell)
    requires Legal(acts) && Run(acts) == map["job" := c] && UnclearCell(c)
    ensures Legal(acts') && Run(acts') == map["job" := c'] && AtRest(c', 0) && !c'.row.cloud && !Barred(c'.route)
    ensures c'.hist.submits == c.hist.submits && c'.hist.releases == c.hist.releases + 1
  {
    hide Legal, Run, FurtherOffers;
    acts' := Step(acts, "job", c, Recover(Resolve(false)));
    c' := RouteOpApply(c, Resolve(false));
    acts' := Step(acts', "job", c', Recover(Release(0)));
    c' := RouteOpApply(c', Release(0));
  }

  /** For every n a local job with n releases has n + 1 submits that may have reached the
      spooler. */
  lemma {:induction false} LocalBoundReached(n: nat) returns (acts: seq<Action>, c: Cell)
    ensures Legal(acts) && Run(acts) == map["job" := c] && UnclearCell(c)
    ensures Releases(Steps(acts, "job")) == n && Risky(c.hist.submits) == 1 + n
  {
    if n == 0 {
      acts := Queued();
      c := NewCell(RawJob());
    } else {
      acts, c := LocalBoundReached(n - 1);
      HistoryCounted(acts, "job");
      acts, c := ReleasedToRest(acts, c);
    }
    acts, c := LeftUnclear(acts, c);
    HistoryCounted(acts, "job");
  }

  /** A cloud job whose last submit failed safely. */
  predicate FailedSafely(c: Cell) {
    && c.view.Quiet? && c.row.cloud && !c.row.pdf && c.row.expires.None? && c.row.recon.None?
    && c.row.state.FailedRetryable? && IsRefused(c.route) && !c.route.reserved
  }

  /** An offered cloud job is activated, executed and refused. */
  lemma OfferedAndRefused(acts: seq<Action>, c: Cell) returns (acts': seq<Action>, c': Cell)
    requires Legal(acts) && Run(acts) == map["job" := c] && c.view.Quiet? && c.row.cloud && c.row.routed && !c.row.pdf
    requires c.row.expires.None? && c.row.recon.None? && c.row.nextAttempt.None? && c.row.state.CloudAcceptPending?
    requires !Barred(c.route)
    ensures Legal(acts') && Run(acts') == map["job" := c'] && FailedSafely(c')
    ensures |c'.hist.submits| == |c.hist.submits| + 1 && FurtherOffers(acts') == FurtherOffers(acts)
  {
    hide Legal, Run, FurtherOffers;
    acts' := Step(acts, "job", c, Outside(Activate));
    c' := StoreOpApply(c, Activate);
    acts', c' := Intended(acts', c', 0);
    acts', c' := Submitted(acts', c', Failed(true, false), 0);
    acts' := Step(acts', "job", c', Execute(RecordFailure));
    c' := ExecApply(c', RecordFailure);
  }

  function CloudJob(): Action {
    OfferNew("job", "printer", 1, false, None)
  }

  /** For every n a cloud job offered n more times is submitted n + 1 times. */
  lemma {:induction false} CloudBoundReached(n: nat) returns (acts: seq<Action>, c: Cell)
    ensures Legal(acts) && Run(acts) == map["job" := c] && FailedSafely(c)
    ensures Offers(Steps(acts, "job")) == n && |c.hist.submits| == 1 + n
  {
    if n == 0 {
      OffersAfter([], CloudJob());
      Then([], CloudJob());
      acts := [] + [CloudJob()];
      c := NewCell(CloudJob());
    } else {
      acts, c := CloudBoundReached(n - 1);
      OffersAfter(acts, OnJob("job", Outside(Offer)));
      acts := Step(acts, "job", c, Outside(Offer));
      c := StoreOpApply(c, Offer);
    }
    acts, c := OfferedAndRefused(acts, c);
  }

  /** The same job accepted by the spooler at time 0. */
  lemma AcceptedAtZero() returns (acts: seq<Action>, c: Cell)
    ensures Legal(acts) && Run(acts) == map["job" := c]
    ensures c.row.state == AcceptedBySpooler && c.view.Quiet? && c.row.nativeId == Some("n")
    ensures c.row.recon == Some(Schedule(2_000, 600_000, 0, false)) && !c.hist.cancelAsked && c.hist.cuts == 0
  {
    hide Legal, Run, FurtherOffers, CanTransition, MayReturn;
    acts := Queued();
    acts, c := Intended(acts, NewCell(RawJob()), 0);
    acts, c := Submitted(acts, c, Accepted("n"), 0);
    acts := Step(acts, "job", c, Execute(RecordAcceptance(0)));
    c := ExecApply(c, RecordAcceptance(0));
  }

  /** One reconciliation attempt of the only job, up to its recorded report. */
  lemma Attempted(acts: seq<Action>, c: Cell, r: Report) returns (acts': seq<Action>, c': Cell)
    requires Legal(acts) && Run(acts) == map["job" := c]
    requires c.view.Quiet? && InSpooler(c.row.state) && c.row.recon.Some? && c.row.nativeId.Some?
    requires !c.row.recon.value.cancelRequested && !FromCancel(r)
    ensures Legal(acts') && Run(acts') == map["job" := c']
    ensures var now := c.row.recon.value.nextObserve;
      ReconEnabled(c.(view := DueView(c.row, now)), Observe(r, now)) &&
      c' == ReconApply(c.(view := DueView(c.row, now)), Observe(r, now))
  {
    var now := c.row.recon.value.nextObserve;
    Then(acts, SelectDue(now, {"job"}));
    acts' := acts + [SelectDue(now, {"job"})];
    c' := c.(view := DueView(c.row, now));
    assert Run(acts') == map["job" := c'];
    acts' := Step(acts', "job", c', Reconcile(Observe(r, now)));
    c' := ReconApply(c', Observe(r, now));
  }

  /** A blocked job whose next observation is due at `at`. */
  predicate BlockedCell(c: Cell, at: int) {
    && c.row.state == Blocked && c.view.Quiet? && !c.hist.cancelAsked && c.row.nativeId.Some?
    && c.row.recon.Some? && !c.row.recon.value.cancelRequested
    && c.row.recon.value.nextObserve == at && c.row.recon.value.deadline == 600_000
  }

  lemma FirstBlocked() returns (acts: seq<Action>, c: Cell)
    ensures Legal(acts) && Run(acts) == map["job" := c] && BlockedCell(c, 4_000) && c.hist.cuts == 0
  {
    hide Legal, Run, FurtherOffers;
    acts, c := AcceptedAtZero();
    acts, c := Attempted(acts, c, Seen(NativeBlocked));
    acts := Step(acts, "job", c, Reconcile(Advance));
    c := ReconApply(c, Advance);
  }

  /** The blocked job after k further `blocked` reports, each two seconds apart. */
  lemma {:induction false} StillBlocked(k: nat) returns (acts: seq<Action>, c: Cell)
    ensures Legal(acts) && Run(acts) == map["job" := c] && BlockedCell(c, 4_000 + 2_000 * k) && c.hist.cuts == 0
  {
    if k == 0 {
      acts, c := FirstBlocked();
    } else {
      acts, c := StillBlocked(k - 1);
      acts, c := Attempted(acts, c, Seen(NativeBlocked));
    }
  }

  /** For every n there is a run with no cancel request in which a blocked job gets n
      inconclusive reports at or after its deadline and is still `blocked`: each time
      the engine returns an error instead of storing `delivery_uncertain`. */
  lemma {:induction false} BlockedJobsNeverAge(n: nat) returns (acts: seq<Action>, c: Cell)
    ensures Legal(acts) && Run(acts) == map["job" := c]
    ensures BlockedCell(c, 600_000 + 2_000 * n) && c.hist.cuts == n
  {
    if n == 0 {
      acts, c := StillBlocked(298);
    } else {
      acts, c := BlockedJobsNeverAge(n - 1);
      acts, c := Attempted(acts, c, ObserveFailed);
      acts := Crashed(acts, "job", c);
      c := CrashCell(c);
    }
  }
}
