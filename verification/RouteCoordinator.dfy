/** The durable coordinator file: reservations and handoff evidence. Every change is one
    atomic replacement of the file; it may be reported as failed although it happened, and
    then the process stops for a restart that adopts what is on disk. */
module RouteCoordinator {
  import opened Options
  import opened HandoffProtocol

  datatype Reservation = Granted | Busy | AlreadyCrossed

  function ReservedRoute(route: Route): Route {
    route.(reserved := true)
  }

  function RecordedRoute(route: Route, o: Outcome, at: int): Route {
    var evidence := EvidenceOf(o, at);
    route.(reserved := evidence.Unclear?, latest := Some(evidence))
  }

  class Coordinator {
    var routes: map<JobId, Route>

    constructor ()
      ensures routes == map[]
    {
      routes := map[];
    }

    function RouteOf(j: JobId): Route
      reads this
    {
      if j in routes then routes[j] else NO_ROUTE
    }

    ghost predicate Only(j: JobId, before: map<JobId, Route>, route: Route)
      reads this
    {
      routes == before[j := route]
    }

    /** A job with a handoff on record, certain or unclear, gets no reservation. */
    method Reserve(j: JobId) returns (r: Reservation, ghost written: bool)
      modifies this
      ensures r.AlreadyCrossed? ==> Barred(old(RouteOf(j))) && !written
      ensures r.Granted? ==> written
      ensures written ==> !Barred(old(RouteOf(j))) && Only(j, old(routes), ReservedRoute(old(RouteOf(j))))
      ensures !written ==> routes == old(routes)
    {
      written := false;
      var busy: bool := *;
      if Barred(RouteOf(j)) { return if busy then Busy else AlreadyCrossed, false; }
      if busy { return Busy, false; }
      routes := routes[j := ReservedRoute(RouteOf(j))];
      var reported: bool := *;
      r, written := if reported then Granted else Busy, true;
    }

    /** Terminal evidence releases the reservation, unclear evidence keeps it. */
    method Finish(j: JobId, o: Outcome, at: int) returns (ok: bool, ghost written: bool)
      modifies this
      ensures ok ==> written
      ensures if written then Only(j, old(routes), RecordedRoute(old(RouteOf(j)), o, at)) else routes == old(routes)
      ensures written ==>
        && (o.Accepted? ==> RouteOf(j).latest == Some(Crossed(Some(o.native), at)) && !RouteOf(j).reserved)
        && (SafeFailure(o) ==> RouteOf(j).latest == Some(Refused(at)) && !RouteOf(j).reserved)
        && (o.Failed? && o.handoffMayHaveSucceeded ==> RouteOf(j).latest == Some(Unclear(at)) && RouteOf(j).reserved)
    {
      ok := *;
      var lost: bool := *;
      written := ok || !lost;
      if ok || !lost { routes := routes[j := RecordedRoute(RouteOf(j), o, at)]; }
    }

    /** `compact_local_terminal_handoffs`, for one job whose outcome is stored. */
    method Forget(j: JobId) returns (ok: bool, ghost written: bool)
      modifies this
      ensures ok ==> written
      ensures if written then Only(j, old(routes), old(RouteOf(j)).(latest := None)) else routes == old(routes)
    {
      ok := *;
      var lost: bool := *;
      written := ok || !lost;
      if ok || !lost { routes := routes[j := RouteOf(j).(latest := None)]; }
    }
  }
}
