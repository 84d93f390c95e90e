/** Many threads in one document resource cache. A thread that misses joins the flight
    for its digest: the first one leads it, the others wait for the leader's result. The
    store lock makes each step below atomic; nothing is locked across two of them. */
module CacheFlights {
  import opened Options
  import opened Bytes
  import opened CacheEntries

  type ThreadId = nat
  type FlightId = nat

  /** How far a leader is. From `Cleared` to the recording of its entry it has passed the
      capacity check without being counted by anybody else's. */
  datatype Lead =
    | Acquiring
    | Cleared(bytes: Bytes)
    | Published(bytes: Bytes)
    | Settled(ok: bool)
    | Announced(ok: bool)

  datatype Stage =
    | Looking
    | Joining
    | Leading(flight: FlightId, lead: Lead)
    | Waiting(flight: FlightId)
    | Done(joined: Option<FlightId>, ok: bool)

  /** One call of `resolve`, with the entry it would record. */
  datatype Thread = Thread(digest: Digest, entry: Entry, stage: Stage)

  datatype Flight = Flight(digest: Digest, leader: ThreadId, published: Option<Bytes>, outcome: Option<bool>)

  /** `flights` remembers every flight there ever was; `table` is the live map. */
  datatype Cache = Cache(entries: Entries, table: map<Digest, FlightId>,
                         flights: map<FlightId, Flight>, threads: map<ThreadId, Thread>)

  datatype Limits = Limits(sha: Bytes -> Digest, maximumBytes: nat, maximumResourceBytes: nat)

  datatype Step =
    | Begin(thread: ThreadId, digest: Digest, entry: Entry)
    | Hit(thread: ThreadId)
    | Miss(thread: ThreadId, dropped: bool)
    | LookFailed(thread: ThreadId)
    | Join(thread: ThreadId, flight: FlightId)
    | AcquireFailed(thread: ThreadId)
    | MakeRoom(thread: ThreadId, bytes: Bytes, evicted: set<Digest>)
    | NoRoom(thread: ThreadId, evicted: set<Digest>, claimed: Option<Digest>)
    | Publish(thread: ThreadId)
    | PublishFailed(thread: ThreadId)
    | Record(thread: ThreadId, ok: bool)
    | Announce(thread: ThreadId)
    | Leave(thread: ThreadId)
    | Wake(thread: ThreadId)
    | Pin(digest: Digest)
    | Unpin(digest: Digest)

  // ---------------------------------------------------------------- steps

  predicate Leads(c: Cache, t: ThreadId) {
    t in c.threads && c.threads[t].stage.Leading? && c.threads[t].stage.flight in c.flights
  }

  predicate IsAt(c: Cache, t: ThreadId, stage: Stage) {
    t in c.threads && c.threads[t].stage == stage
  }

  predicate IsAcquiring(c: Cache, t: ThreadId) {
    Leads(c, t) && c.threads[t].stage.lead.Acquiring?
  }

  /** What an eviction may take: recorded entries that nobody pins. */
  predicate Evictable(m: Entries, ds: set<Digest>) {
    forall d | d in ds :: d in m && m[d].refs == 0
  }

  ghost predicate Enabled(l: Limits, c: Cache, s: Step) {
    match s
    case Begin(t, _, entry) => t !in c.threads && entry.length <= l.maximumResourceBytes
    case Hit(t) => IsAt(c, t, Looking) && c.threads[t].digest in c.entries
    case Miss(t, dropped) => IsAt(c, t, Looking) && (dropped ==> Evictable(c.entries, {c.threads[t].digest}))
    case LookFailed(t) => IsAt(c, t, Looking)
    case Join(t, f) => IsAt(c, t, Joining) && f !in c.flights
    case AcquireFailed(t) => IsAcquiring(c, t)
    case MakeRoom(t, bytes, evicted) =>
      && IsAcquiring(c, t) && l.sha(bytes) == c.threads[t].digest && |bytes| == c.threads[t].entry.length
      && Evictable(c.entries, evicted)
      && Total(c.entries - evicted) + c.threads[t].entry.length <= l.maximumBytes
    case NoRoom(t, evicted, claimed) =>
      IsAcquiring(c, t) && Evictable(c.entries, evicted) && (claimed.Some? ==> claimed.value in c.entries - evicted)
    case Publish(t) => Leads(c, t) && c.threads[t].stage.lead.Cleared?
    case PublishFailed(t) => Leads(c, t) && c.threads[t].stage.lead.Cleared?
    case Record(t, _) => Leads(c, t) && c.threads[t].stage.lead.Published?
    case Announce(t) => Leads(c, t) && c.threads[t].stage.lead.Settled?
    case Leave(t) => Leads(c, t) && c.threads[t].stage.lead.Announced?
    case Wake(t) =>
      && t in c.threads && c.threads[t].stage.Waiting? && c.threads[t].stage.flight in c.flights
      && c.flights[c.threads[t].stage.flight].outcome.Some?
    case Pin(d) => d in c.entries && !c.entries[d].evicting
    case Unpin(d) => d in c.entries && c.entries[d].refs > 0
  }

  function To(c: Cache, t: ThreadId, stage: Stage): Cache
    requires t in c.threads
  {
    c.(threads := c.threads[t := c.threads[t].(stage := stage)])
  }

  function ToLead(c: Cache, t: ThreadId, lead: Lead): Cache
    requires Leads(c, t)
  {
    To(c, t, Leading(c.threads[t].stage.flight, lead))
  }

  /** `upsert_document_resource`: pins survive, a claim does not. */
  function Upsert(m: Entries, d: Digest, e: Entry): Entries {
    m[d := e.(refs := if d in m then m[d].refs else e.refs, evicting := false)]
  }

  /** A claim that a failed eviction left behind. */
  function Claimed(m: Entries, d: Digest): Entries
    requires d in m
  {
    m[d := m[d].(evicting := true)]
  }

  function Touch(m: Entries, d: Digest, now: int): Entries
    requires d in m
  {
    m[d := m[d].(access := now)]
  }

  ghost function Apply(l: Limits, c: Cache, s: Step): Cache
    requires Enabled(l, c, s)
  {
    match s
    case Begin(t, d, entry) => c.(threads := c.threads[t := Thread(d, entry, Looking)])
    case Hit(t) =>
      To(c.(entries := Touch(c.entries, c.threads[t].digest, c.threads[t].entry.access)), t, Done(None, true))
    case Miss(t, dropped) =>
      To(c.(entries := if dropped then c.entries - {c.threads[t].digest} else c.entries), t, Joining)
    case LookFailed(t) => To(c, t, Done(None, false))
    case Join(t, f) =>
      var d := c.threads[t].digest;
      if d in c.table then To(c, t, Waiting(c.table[d]))
      else To(c.(table := c.table[d := f], flights := c.flights[f := Flight(d, t, None, None)]), t,
        Leading(f, Acquiring))
    case AcquireFailed(t) => ToLead(c, t, Settled(false))
    case MakeRoom(t, bytes, evicted) => ToLead(c.(entries := c.entries - evicted), t, Cleared(bytes))
    case NoRoom(t, evicted, claimed) =>
      ToLead(c.(entries := if claimed.Some? then Claimed(c.entries - evicted, claimed.value) else c.entries - evicted),
             t, Settled(false))
    case Publish(t) =>
      var f, bytes := c.threads[t].stage.flight, c.threads[t].stage.lead.bytes;
      ToLead(c.(flights := c.flights[f := c.flights[f].(published := Some(bytes))]), t, Published(bytes))
    case PublishFailed(t) => ToLead(c, t, Settled(false))
    case Record(t, ok) =>
      ToLead(
        if ok then c.(entries := Upsert(c.entries, c.threads[t].digest, c.threads[t].entry)) else c, t, Settled(ok))
    case Announce(t) =>
      var f, ok := c.threads[t].stage.flight, c.threads[t].stage.lead.ok;
      ToLead(c.(flights := c.flights[f := c.flights[f].(outcome := Some(ok))]), t, Announced(ok))
    case Leave(t) =>
      var f, ok := c.threads[t].stage.flight, c.threads[t].stage.lead.ok;
      To(c.(table := c.table - {c.threads[t].digest}), t, Done(Some(f), ok))
    case Wake(t) =>
      var f := c.threads[t].stage.flight;
      To(c, t, Done(Some(f), c.flights[f].outcome.value))
    case Pin(d) => c.(entries := c.entries[d := c.entries[d].(refs := c.entries[d].refs + 1)])
    case Unpin(d) => c.(entries := c.entries[d := c.entries[d].(refs := c.entries[d].refs - 1)])
  }

  // ---------------------------------------------------------------- what every step keeps

  /** A leader leads the flight that the table shows for its digest. */
  predicate LeaderInv(c: Cache, t: ThreadId)
    requires t in c.threads
  {
    c.threads[t].stage.Leading? ==>
      var f := c.threads[t].stage.flight;
      && f in c.flights && c.flights[f].leader == t && c.flights[f].digest == c.threads[t].digest
      && c.threads[t].digest in c.table && c.table[c.threads[t].digest] == f
      && c.flights[f].outcome == (if c.threads[t].stage.lead.Announced? then Some(c.threads[t].stage.lead.ok) else None)
  }

  /** What a leader holds, and what it has published once it succeeds, hashes to its digest. */
  predicate ContentInv(l: Limits, c: Cache, t: ThreadId)
    requires t in c.threads
  {
    var thread := c.threads[t];
    thread.stage.Leading? && thread.stage.flight in c.flights ==>
      var lead, published := thread.stage.lead, c.flights[thread.stage.flight].published;
      && (lead.Cleared? || lead.Published? ==> l.sha(lead.bytes) == thread.digest)
      && (lead.Published? ==> published == Some(lead.bytes))
      && (lead == Settled(true) ==> published.Some? && l.sha(published.value) == thread.digest)
  }

  /** A waiting or finished thread refers to a flight for its own digest, and a finished
      one returned that flight's outcome. */
  predicate JoinInv(c: Cache, t: ThreadId)
    requires t in c.threads
  {
    var thread := c.threads[t];
    && (thread.stage.Waiting? ==>
      thread.stage.flight in c.flights && c.flights[thread.stage.flight].digest == thread.digest)
    && (thread.stage.Done? && thread.stage.joined.Some? ==>
          var f := thread.stage.joined.value;
          f in c.flights && c.flights[f].digest == thread.digest && c.flights[f].outcome == Some(thread.stage.ok))
  }

  /** The table shows a flight exactly while its leader is at work on it. */
  predicate TableInv(c: Cache) {
    forall d | d in c.table :: LedBySomebody(c, d)
  }

  predicate LedBySomebody(c: Cache, d: Digest)
    requires d in c.table
  {
    && c.table[d] in c.flights && c.flights[c.table[d]].digest == d
    && var t := c.flights[c.table[d]].leader;
    t in c.threads && c.threads[t].stage.Leading? && c.threads[t].stage.flight == c.table[d] && c.threads[t].digest == d
  }

  /** A flight without an outcome is in the table; a successful one published its digest. */
  predicate FlightInv(l: Limits, c: Cache) {
    forall f | f in c.flights :: Accounted(l, c, f)
  }

  predicate Accounted(l: Limits, c: Cache, f: FlightId)
    requires f in c.flights
  {
    var flight := c.flights[f];
    && (flight.outcome.None? ==> flight.digest in c.table && c.table[flight.digest] == f)
    && (flight.outcome == Some(true) ==> flight.published.Some? && l.sha(flight.published.value) == flight.digest)
  }

  predicate ThreadInv(l: Limits, c: Cache) {
    forall t | t in c.threads :: LeaderInv(c, t) && ContentInv(l, c, t) && JoinInv(c, t)
  }

  predicate FlightsInv(l: Limits, c: Cache) {
    ThreadInv(l, c) && TableInv(c) && FlightInv(l, c)
  }

  predicate ActorInv(l: Limits, c: Cache, s: Step) {
    !s.Pin? && !s.Unpin? && s.thread in c.threads ==>
      LeaderInv(c, s.thread) && ContentInv(l, c, s.thread) && JoinInv(c, s.thread)
  }

  lemma StepKeepsTable(l: Limits, c: Cache, s: Step, d: Digest)
    requires Enabled(l, c, s) && ActorInv(l, c, s) && (d in c.table ==> LedBySomebody(c, d))
    requires d in Apply(l, c, s).table
    ensures LedBySomebody(Apply(l, c, s), d)
  {
    hide Total, ContentInv, JoinInv;
  }

  lemma StepKeepsFlight(l: Limits, c: Cache, s: Step, f: FlightId)
    requires Enabled(l, c, s) && ActorInv(l, c, s) && (f in c.flights ==> Accounted(l, c, f))
    requires f in Apply(l, c, s).flights
    ensures Accounted(l, Apply(l, c, s), f)
  {
    hide Total, JoinInv;
  }

  lemma StepKeepsLeader(l: Limits, c: Cache, s: Step, t: ThreadId)
    requires Enabled(l, c, s) && ActorInv(l, c, s) && (t in c.threads ==> LeaderInv(c, t))
    requires t in Apply(l, c, s).threads
    ensures LeaderInv(Apply(l, c, s), t)
  {
    hide Total, ContentInv, JoinInv;
  }

  lemma StepKeepsContent(l: Limits, c: Cache, s: Step, t: ThreadId)
    requires Enabled(l, c, s) && ActorInv(l, c, s) && (t in c.threads ==> LeaderInv(c, t) && ContentInv(l, c, t))
    requires t in Apply(l, c, s).threads
    ensures ContentInv(l, Apply(l, c, s), t)
  {
    hide Total, JoinInv;
  }

  lemma StepKeepsJoin(l: Limits, c: Cache, s: Step, t: ThreadId)
    requires Enabled(l, c, s) && ActorInv(l, c, s) && (t in c.threads ==> JoinInv(c, t))
    requires forall d | d in c.table :: LedBySomebody(c, d)
    requires t in Apply(l, c, s).threads
    ensures JoinInv(Apply(l, c, s), t)
  {
    hide Total, ContentInv;
  }

  lemma StepKeepsInv(l: Limits, c: Cache, s: Step)
    requires FlightsInv(l, c) && Enabled(l, c, s)
    ensures FlightsInv(l, Apply(l, c, s))
  {
    hide LeaderInv, ContentInv, JoinInv, LedBySomebody, Accounted, Enabled, Apply;
    var after := Apply(l, c, s);
    forall d | d in after.table ensures LedBySomebody(after, d) {
      StepKeepsTable(l, c, s, d);
    }
    forall f | f in after.flights ensures Accounted(l, after, f) {
      StepKeepsFlight(l, c, s, f);
    }
    forall t | t in after.threads ensures LeaderInv(after, t) && ContentInv(l, after, t) && JoinInv(after, t) {
      StepKeepsLeader(l, c, s, t);
      StepKeepsContent(l, c, s, t);
      StepKeepsJoin(l, c, s, t);
    }
  }
}
