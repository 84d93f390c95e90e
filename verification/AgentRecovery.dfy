/** Recovery of local routes: what the coordinator's file says is carried over into the
    queue. It happens at every start and after every round of the scheduler, while no job
    is in hand. */
module AgentRecovery {
  import opened Options
  import opened JobStates
  import opened HandoffProtocol
  import opened HandoffRuns
  import opened HandoffOutcomes
  import opened RouteCoordinator
  import opened AgentEngine

  /** What recovery makes of a local spool intent. A reservation without evidence of its
      own says that the handoff may have happened. */
  function Recovered(row: Row, route: Route): Row {
    if row.cloud || !row.state.SpoolIntent? then row
    else if !Adopted(route) then Logged(row, DeliveryUncertain)
    else
      match route.latest
      case None => row
      case Some(Crossed(Some(native), at)) =>
        Logged(row, AcceptedBySpooler).(nativeId := Some(native), recon := Some(AcceptanceSchedule(row.recon, at)))
      case Some(Refused(at)) => Logged(row, FailedRetryable).(nextAttempt := Some(at + LOCAL_RETRY_DELAY_MS))
      case Some(_) => Logged(row, DeliveryUncertain)
  }

  lemma RecoveredRestores(row: Row, route: Route)
    ensures row.cloud || !row.state.SpoolIntent? ==> Recovered(row, route) == row
    ensures !row.cloud && row.state.SpoolIntent? ==> Restores(row, route, Recovered(row, route))
  {
  }

  /** Every local spool intent was restored by what was on record for its route; no other
      row changed. */
  ghost predicate RestoresAll(rows: map<JobId, Row>, routes: map<JobId, Route>, rows': map<JobId, Row>) {
    rows'.Keys == rows.Keys &&
    forall j | j in rows ::
      if !rows[j].cloud && rows[j].state == SpoolIntent then Restores(rows[j], RouteIn(routes, j), rows'[j])
      else rows'[j] == rows[j]
  }

  lemma AllRestored(rows: map<JobId, Row>, routes: map<JobId, Route>, rows': map<JobId, Row>)
    requires rows'.Keys == rows.Keys && forall j | j in rows :: rows'[j] == Recovered(rows[j], RouteIn(routes, j))
    ensures RestoresAll(rows, routes, rows')
  {
    hide Restores, Recovered, RouteIn;
    forall j | j in rows { RecoveredRestores(rows[j], RouteIn(routes, j)); }
  }

  /** A reservation whose own evidence is missing, of a job that may have used it. */
  predicate IsOpen(row: Row, route: Route) {
    && !row.cloud && route.reserved && !(route.latest.Some? && route.latest.value.Unclear?)
    && row.state in {SpoolIntent, DeliveryUncertain, FailedRetryable, FailedTerminal}
  }

  /** Exactly the open reservations were declared unclear, and all stay. */
  ghost predicate ClosesAll(rows: map<JobId, Row>, routes: map<JobId, Route>, routes': map<JobId, Route>) {
    forall j | j in rows ::
      var route, route' := RouteIn(routes, j), RouteIn(routes', j);
      if IsOpen(rows[j], route)
      then route'.latest.Some? && route'.latest.value.Unclear? && route' == route.(latest := route'.latest)
      else route' == route
  }

  lemma AllClosed(rows: map<JobId, Row>, routes: map<JobId, Route>, routes': map<JobId, Route>)
    requires forall j | j in rows :: Adopts(rows[j], RouteIn(routes, j), RouteIn(routes', j))
    ensures ClosesAll(rows, routes, routes')
  {
    hide RouteIn;
  }

  /** The stored state and identifier tell all that the evidence tells. */
  predicate IsSuperseded(row: Row, route: Route) {
    !row.cloud &&
    match route.latest
    case Some(Crossed(native, _)) =>
      && row.nativeId == native && (native.None? && row.state == DeliveryUncertain ==> route.confirmed)
      && row.state in {AcceptedBySpooler, Spooling, Printing, CompletedReported, Blocked, CancelRequested,
                       DeliveryUncertain, Cancelled, FailedTerminal}
    case Some(Refused(_)) =>
      || row.state in {FailedRetryable, FailedTerminal, Cancelled, Expired}
      || (row.nativeId.Some? && row.state in {AcceptedBySpooler, Spooling, Printing, CompletedReported, Blocked,
                                              CancelRequested, DeliveryUncertain})
    case _ => false
  }

  /** Exactly the superseded evidence was dropped. */
  ghost predicate DropsAll(rows: map<JobId, Row>, routes: map<JobId, Route>, routes': map<JobId, Route>) {
    forall j | j in rows ::
      RouteIn(routes', j) ==
        if IsSuperseded(rows[j], RouteIn(routes, j)) then RouteIn(routes, j).(latest := None) else RouteIn(routes, j)
  }

  lemma SupersededIsShown(row: Row, route: Route)
    ensures IsSuperseded(row, route) <==> !row.cloud && Shows(row, route)
  {
  }

  lemma AllDropped(rows: map<JobId, Row>, routes: map<JobId, Route>, routes': map<JobId, Route>)
    requires forall j | j in rows :: Compacted(rows[j], RouteIn(routes, j), RouteIn(routes', j))
    ensures DropsAll(rows, routes, routes')
  {
    hide Shows, IsSuperseded, RouteIn;
    forall j | j in rows { SupersededIsShown(rows[j], RouteIn(routes, j)); }
  }

  /** The route of a job after the first pass. */
  predicate Adopts(row: Row, route: Route, route': Route) {
    if !row.cloud && !Adopted(route) && Quarantines(row, route)
    then IsUnclear(route') && route' == route.(latest := route'.latest)
    else route' == route
  }

  /** Adopting a route does not change what recovery makes of it. */
  lemma AdoptedRecovers(row: Row, route: Route, route': Route)
    requires Adopts(row, route, route')
    ensures Recovered(row, route') == Recovered(row, route)
    ensures !row.cloud && row.state.SpoolIntent? ==> Adopted(route')
  {
  }

  lemma QuarantineStep(c: Cell, now: int)
    requires c.view.Quiet? && !c.row.cloud && !Adopted(c.route) && Quarantines(c.row, c.route)
    ensures LeadsRoute(c, Recover(Quarantine(now)), RecordedRoute(c.route, Failed(false, true), now), Quiet)
    ensures Adopts(c.row, c.route, RecordedRoute(c.route, Failed(false, true), now))
  {
  }

  lemma ProjectStep(c: Cell)
    requires c.view.Quiet? && !c.row.cloud && Projects(c.row, c.route)
    ensures Leads(c, Recover(Project), Recovered(c.row, c.route), Quiet)
  {
  }

  lemma CompactStep(c: Cell)
    requires c.view.Quiet? && !c.row.cloud && Shows(c.row, c.route)
    ensures LeadsRoute(c, Recover(Compact), c.route.(latest := None), Quiet)
  {
  }

  // ---------------------------------------------------------------- first pass

  method QuarantineNext(e: Engine, j: JobId) returns (ok: bool)
    requires e.Valid() && AllQuiet(e.world) && j in e.store.rows
    modifies e`acts, e`world, e.coordinator
    ensures e.Valid() && AllQuiet(e.world) && old(e.acts) <= e.acts
    ensures ok ==> Adopts(e.store.rows[j], old(e.coordinator.RouteOf(j)), e.coordinator.RouteOf(j))
    ensures forall k | k != j :: e.coordinator.RouteOf(k) == old(e.coordinator.RouteOf(k))
    ensures e.coordinator.routes.Keys <= old(e.coordinator.routes.Keys) + {j}
  {
    hide Legal, Run, CellEnabled, CellApply, Quarantines, Adopted;
    var row, route := e.store.rows[j], e.coordinator.RouteOf(j);
    if row.cloud || Adopted(route) || !Quarantines(row, route) { return true; }
    var now := e.UnixMs();
    ghost var written;
    ok, written := e.coordinator.Finish(j, Failed(false, true), now);
    if written {
      QuarantineStep(e.world[j], now);
      e.Routed(j, Recover(Quarantine(now)), e.coordinator.RouteOf(j), Quiet);
    }
  }

  function RouteIn(routes: map<JobId, Route>, j: JobId): Route {
    if j in routes then routes[j] else NO_ROUTE
  }

  /** The jobs outside `left` have been through the first pass, the others not yet. */
  ghost predicate AdoptedBut(e: Engine, routes: map<JobId, Route>, left: set<JobId>)
    reads e.store, e.coordinator
  {
    && (forall j | j in e.store.rows && j !in left ::
          Adopts(e.store.rows[j], RouteIn(routes, j), e.coordinator.RouteOf(j)))
    && (forall j | j in left :: j in e.store.rows && e.coordinator.RouteOf(j) == RouteIn(routes, j))
  }

  /** Every reservation without evidence becomes an unclear handoff. */
  method QuarantineAll(e: Engine, routes: map<JobId, Route>) returns (ok: bool)
    requires e.Valid() && AllQuiet(e.world) && routes == e.coordinator.routes
    modifies e`acts, e`world, e.coordinator
    ensures e.Valid() && AllQuiet(e.world) && old(e.acts) <= e.acts
    ensures ok ==> AdoptedBut(e, routes, {})
    ensures ok ==> ClosesAll(e.store.rows, routes, e.coordinator.routes)
  {
    hide Engine.Valid, Adopts;
    ok := true;
    var left := routes.Keys;
    FirstPass(e, routes);
    while left != {}
      invariant e.Valid() && AllQuiet(e.world) && old(e.acts) <= e.acts && ok && AdoptedBut(e, routes, left)
      decreases left
    {
      var j :| j in left;
      ok := QuarantineNext(e, j);
      if !ok { return; }
      left := left - {j};
    }
    AllClosed(e.store.rows, routes, e.coordinator.routes);
  }

  lemma FirstPass(e: Engine, routes: map<JobId, Route>)
    requires e.Valid() && routes == e.coordinator.routes
    ensures AdoptedBut(e, routes, routes.Keys)
  {
    hide Legal, Run;
  }

  // ---------------------------------------------------------------- second pass

  /** Stores what the newest evidence of a local spool intent says. */
  method StoreEvidence(e: Engine, j: JobId, evidence: Evidence) returns (ok: bool)
    requires e.store.Valid() && j in e.store.rows && !e.store.rows[j].cloud && e.store.rows[j].state.SpoolIntent?
    requires e.coordinator.RouteOf(j).latest == Some(evidence) && Adopted(e.coordinator.RouteOf(j))
    modifies e.store`rows
    ensures e.store.Valid()
    ensures e.store.rows == if ok
      then old(e.store.rows)[j := Recovered(old(e.store.rows)[j], e.coordinator.RouteOf(j))] else old(e.store.rows)
  {
    match evidence
    case Crossed(Some(native), at) => ok := e.store.RecordNativeAcceptance(j, native, at);
    case Refused(at) => ok := e.store.RecordLocalRetryableFailure(j, at + LOCAL_RETRY_DELAY_MS);
    case _ => ok := e.store.RecordLocalHandoffUncertainty(j);
  }

  method ProjectNext(e: Engine, j: JobId) returns (ok: bool)
    requires e.Valid() && AllQuiet(e.world) && j in e.store.rows
    requires !e.store.rows[j].cloud && e.store.rows[j].state.SpoolIntent? ==> Adopted(e.coordinator.RouteOf(j))
    modifies e`acts, e`world, e.store`rows
    ensures e.Valid() && AllQuiet(e.world) && old(e.acts) <= e.acts
    ensures ok ==> e.store.rows == old(e.store.rows)[j := Recovered(old(e.store.rows)[j], e.coordinator.RouteOf(j))]
  {
    hide Legal, Run, CellEnabled, CellApply, Adopted;
    var row, latest := e.store.rows[j], e.coordinator.RouteOf(j).latest;
    if row.cloud || !row.state.SpoolIntent? || latest.None? {
      assert e.store.rows == e.store.rows[j := row];
      return true;
    }
    hide Recovered;
    ok := StoreEvidence(e, j, latest.value);
    if ok {
      ProjectStep(e.world[j]);
      e.Stepped(j, Recover(Project), e.store.rows[j], Quiet);
    }
  }

  /** The jobs outside `left` are recovered, the others as they were. */
  ghost predicate RecoveredBut(e: Engine, before: map<JobId, Row>, left: set<JobId>)
    reads e.store, e.coordinator
  {
    && left <= before.Keys && e.store.rows.Keys == before.Keys
    && (forall j | j in before && j !in left :: e.store.rows[j] == Recovered(before[j], e.coordinator.RouteOf(j)))
    && (forall j | j in left :: e.store.rows[j] == before[j])
  }

  method ProjectAll(e: Engine) returns (ok: bool)
    requires e.Valid() && AllQuiet(e.world)
    requires forall j | j in e.store.rows && !e.store.rows[j].cloud && e.store.rows[j].state.SpoolIntent? ::
      Adopted(e.coordinator.RouteOf(j))
    modifies e`acts, e`world, e.store`rows
    ensures e.Valid() && AllQuiet(e.world) && old(e.acts) <= e.acts
    ensures ok ==> RecoveredBut(e, old(e.store.rows), {})
    ensures ok ==> RestoresAll(old(e.store.rows), e.coordinator.routes, e.store.rows)
  {
    hide Engine.Valid, Recovered, Adopted;
    ok := true;
    var left := e.store.rows.Keys;
    while left != {}
      invariant e.Valid() && AllQuiet(e.world) && old(e.acts) <= e.acts && ok
      invariant RecoveredBut(e, old(e.store.rows), left)
      decreases left
    {
      var j :| j in left;
      ok := ProjectNext(e, j);
      if !ok { return; }
      left := left - {j};
    }
    AllRestored(old(e.store.rows), e.coordinator.routes, e.store.rows);
  }

  // ---------------------------------------------------------------- third pass

  method CompactNext(e: Engine, j: JobId) returns (ok: bool)
    requires e.Valid() && AllQuiet(e.world) && j in e.store.rows
    modifies e`acts, e`world, e.coordinator
    ensures e.Valid() && AllQuiet(e.world) && old(e.acts) <= e.acts
    ensures forall k | k != j :: e.coordinator.RouteOf(k) == old(e.coordinator.RouteOf(k))
    ensures ok && !e.store.rows[j].cloud && Shows(e.store.rows[j], old(e.coordinator.RouteOf(j))) ==>
      e.coordinator.RouteOf(j) == old(e.coordinator.RouteOf(j)).(latest := None)
    ensures e.store.rows[j].cloud || !Shows(e.store.rows[j], old(e.coordinator.RouteOf(j))) ==>
      e.coordinator.RouteOf(j) == old(e.coordinator.RouteOf(j))
  {
    hide Legal, Run, CellEnabled, CellApply, Shows;
    if e.store.rows[j].cloud || !Shows(e.store.rows[j], e.coordinator.RouteOf(j)) { return true; }
    ghost var written;
    ok, written := e.coordinator.Forget(j);
    if written {
      CompactStep(e.world[j]);
      e.Routed(j, Recover(Compact), e.coordinator.RouteOf(j), Quiet);
    }
  }

  /** What every job of a compacted coordinator satisfies. */
  predicate Compacted(row: Row, route: Route, route': Route) {
    route' == if !row.cloud && Shows(row, route) then route.(latest := None) else route
  }

  ghost predicate CompactedBut(e: Engine, routes: map<JobId, Route>, left: set<JobId>)
    reads e.store, e.coordinator
  {
    && left <= e.store.rows.Keys
    && (forall j | j in e.store.rows && j !in left ::
          Compacted(e.store.rows[j], RouteIn(routes, j), e.coordinator.RouteOf(j)))
    && (forall j | j in left :: e.coordinator.RouteOf(j) == RouteIn(routes, j))
  }

  method CompactAll(e: Engine) returns (ok: bool)
    requires e.Valid() && AllQuiet(e.world)
    modifies e`acts, e`world, e.coordinator
    ensures e.Valid() && AllQuiet(e.world) && old(e.acts) <= e.acts
    ensures ok ==> CompactedBut(e, old(e.coordinator.routes), {})
    ensures ok ==> DropsAll(e.store.rows, old(e.coordinator.routes), e.coordinator.routes)
  {
    hide Engine.Valid, Shows, DropsAll;
    ok := true;
    var left := e.store.rows.Keys;
    while left != {}
      invariant e.Valid() && AllQuiet(e.world) && old(e.acts) <= e.acts && ok
      invariant CompactedBut(e, old(e.coordinator.routes), left)
      decreases left
    {
      var j :| j in left;
      ok := CompactNext(e, j);
      if !ok { return; }
      left := left - {j};
    }
    AllDropped(e.store.rows, old(e.coordinator.routes), e.coordinator.routes);
  }

  // ---------------------------------------------------------------- all passes

  /** A recovered intent that is still an intent has nothing to go by. */
  lemma StillIntended(row: Row, route: Route, route': Route)
    requires !row.cloud && Recovered(row, route).state.SpoolIntent? && Adopted(route)
    requires Compacted(Recovered(row, route), route, route')
    ensures Unprovable(Recovered(row, route), route')
  {
  }

  /** The first pass leaves no local intent with a reservation but no evidence. */
  lemma IntentsAdopted(rows: map<JobId, Row>, routes: map<JobId, Route>, adopted: map<JobId, Route>)
    requires forall j | j in rows :: Adopts(rows[j], RouteIn(routes, j), RouteIn(adopted, j))
    ensures forall j | j in rows && !rows[j].cloud && rows[j].state.SpoolIntent? :: Adopted(RouteIn(adopted, j))
  {
  }

  /** `rows'` is what recovery makes of `rows`, and the local intents left are stranded. */
  ghost predicate IsRecovery(rows: map<JobId, Row>, routes: map<JobId, Route>, rows': map<JobId, Row>,
      routes': map<JobId, Route>)
  {
    && rows'.Keys == rows.Keys
    && (forall j | j in rows :: rows'[j] == Recovered(rows[j], RouteIn(routes, j)))
    && (forall j | j in rows' && !rows'[j].cloud && rows'[j].state.SpoolIntent? ::
      Unprovable(rows'[j], RouteIn(routes', j)))
  }

  lemma PassesCompose(rows: map<JobId, Row>, routes: map<JobId, Route>, adopted: map<JobId, Route>,
                      rows': map<JobId, Row>, routes': map<JobId, Route>)
    requires forall j | j in rows :: Adopts(rows[j], RouteIn(routes, j), RouteIn(adopted, j))
    requires rows'.Keys == rows.Keys && forall j | j in rows :: rows'[j] == Recovered(rows[j], RouteIn(adopted, j))
    requires forall j | j in rows' :: Compacted(rows'[j], RouteIn(adopted, j), RouteIn(routes', j))
    ensures IsRecovery(rows, routes, rows', routes')
  {
    hide Recovered, Adopts, Adopted, Compacted, Unprovable, RouteIn;
    forall j | j in rows
      ensures rows'[j] == Recovered(rows[j], RouteIn(routes, j))
      ensures !rows'[j].cloud && rows'[j].state.SpoolIntent? ==> Unprovable(rows'[j], RouteIn(routes', j))
    {
      AdoptedRecovers(rows[j], RouteIn(routes, j), RouteIn(adopted, j));
      RecoveredKeepsKind(rows[j], RouteIn(adopted, j));
      if !rows'[j].cloud && rows'[j].state.SpoolIntent? {
        StillIntended(rows[j], RouteIn(adopted, j), RouteIn(routes', j));
      }
    }
  }

  lemma RecoveredKeepsKind(row: Row, route: Route)
    ensures Recovered(row, route).cloud == row.cloud
    ensures Recovered(row, route).state.SpoolIntent? ==> row.state.SpoolIntent?
  {
  }

  lemma RecoveryRestores(rows: map<JobId, Row>, routes: map<JobId, Route>, rows': map<JobId, Row>,
      routes': map<JobId, Route>)
    requires IsRecovery(rows, routes, rows', routes')
    ensures RestoresAll(rows, routes, rows')
  {
    AllRestored(rows, routes, rows');
    hide Recovered, Restores;
  }

  /** Every local job becomes what its route calls for, and no other job changes. The
      local spool intents that remain are stranded. */
  method ReconcileLocalRoutes(e: Engine) returns (ok: bool)
    requires e.Valid() && AllQuiet(e.world)
    modifies e`acts, e`world, e.store`rows, e.coordinator
    ensures e.Valid() && AllQuiet(e.world) && old(e.acts) <= e.acts
    ensures ok ==> IsRecovery(old(e.store.rows), old(e.coordinator.routes), e.store.rows, e.coordinator.routes)
    ensures ok ==> RestoresAll(old(e.store.rows), old(e.coordinator.routes), e.store.rows)
  {
    hide Engine.Valid, RestoresAll, ClosesAll, DropsAll, Recovered, Adopts, Adopted, Compacted, Unprovable, IsRecovery;
    ghost var routes, rows := e.coordinator.routes, e.store.rows;
    ok := QuarantineAll(e, e.coordinator.routes);
    if !ok { return; }
    ghost var adopted := e.coordinator.routes;
    IntentsAdopted(rows, routes, adopted);
    ok := ProjectAll(e);
    if !ok { return; }
    ok := CompactAll(e);
    if !ok { return; }
    PassesCompose(rows, routes, adopted, e.store.rows, e.coordinator.routes);
    RecoveryRestores(rows, routes, e.store.rows, e.coordinator.routes);
  }
}
