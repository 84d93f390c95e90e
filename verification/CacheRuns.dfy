/** Interleavings of the document resource cache: single flight, and the exact bound on
    recorded bytes. */
module CacheRuns {
  import opened Options
  import opened CacheEntries
  import opened CacheFlights

  /** A cache as `open` leaves it. */
  ghost predicate Fresh(l: Limits, c: Cache) {
    c.table == map[] && c.flights == map[] && c.threads == map[] && Total(c.entries) <= l.maximumBytes
  }

  /** Every step was possible when it happened. */
  ghost predicate Legal(l: Limits, init: Cache, steps: seq<Step>)
    decreases |steps|, 0
  {
    steps == [] ||
    (Legal(l, init, steps[..|steps| - 1]) && Enabled(l, Run(l, init, steps[..|steps| - 1]), steps[|steps| - 1]))
  }

  ghost function Run(l: Limits, init: Cache, steps: seq<Step>): Cache
    requires Legal(l, init, steps)
    decreases |steps|, 1
  {
    if steps == [] then init else Apply(l, Run(l, init, steps[..|steps| - 1]), steps[|steps| - 1])
  }

  // ---------------------------------------------------------------- single flight

  lemma {:induction false} RunKeepsFlights(l: Limits, init: Cache, steps: seq<Step>)
    requires Fresh(l, init) && Legal(l, init, steps)
    ensures FlightsInv(l, Run(l, init, steps))
  {
    if steps != [] {
      RunKeepsFlights(l, init, steps[..|steps| - 1]);
      hide FlightsInv, Enabled, Apply;
      StepKeepsInv(l, Run(l, init, steps[..|steps| - 1]), steps[|steps| - 1]);
    }
  }

  predicate IsLeading(c: Cache, t: ThreadId) {
    t in c.threads && c.threads[t].stage.Leading?
  }

  /** At most one thread acquires a digest at any instant, and the table holds exactly
      the digests with a leader in progress. */
  lemma OneLeaderPerDigest(l: Limits, init: Cache, steps: seq<Step>)
    requires Fresh(l, init) && Legal(l, init, steps)
    ensures var c := Run(l, init, steps);
      && (forall t, u | IsLeading(c, t) && IsLeading(c, u) && c.threads[t].digest == c.threads[u].digest :: t == u)
      && (forall d :: d in c.table <==> exists t | IsLeading(c, t) :: c.threads[t].digest == d)
  {
    RunKeepsFlights(l, init, steps);
    var c := Run(l, init, steps);
    hide Legal, Run, Fresh;
    forall t, u | IsLeading(c, t) && IsLeading(c, u) && c.threads[t].digest == c.threads[u].digest ensures t == u {
      assert LeaderInv(c, t) && LeaderInv(c, u);
    }
    forall d | d in c.table ensures exists t | IsLeading(c, t) :: c.threads[t].digest == d {
      assert LedBySomebody(c, d);
      assert IsLeading(c, c.flights[c.table[d]].leader);
    }
    forall t | IsLeading(c, t) ensures c.threads[t].digest in c.table {
      assert LeaderInv(c, t);
    }
  }

  /** Whoever joined a flight, leader or follower, returns that flight's one outcome, and
      a success means bytes that hash to its digest were published on that flight. */
  lemma FollowersReturnTheLeadersResult(l: Limits, init: Cache, steps: seq<Step>, t: ThreadId)
    requires Fresh(l, init) && Legal(l, init, steps) && t in Run(l, init, steps).threads
    requires Run(l, init, steps).threads[t].stage.Done? && Run(l, init, steps).threads[t].stage.joined.Some?
    ensures var c := Run(l, init, steps); var f := c.threads[t].stage.joined.value;
      && f in c.flights && c.flights[f].digest == c.threads[t].digest
      && c.flights[f].outcome == Some(c.threads[t].stage.ok)
      && (c.threads[t].stage.ok ==>
            c.flights[f].published.Some? && l.sha(c.flights[f].published.value) == c.threads[t].digest)
  {
    RunKeepsFlights(l, init, steps);
    hide Legal, Run, Fresh;
    var c := Run(l, init, steps);
    assert JoinInv(c, t) && Accounted(l, c, c.threads[t].stage.joined.value);
  }

  /** Nobody waits for a leader that has left: an unanswered flight is still led. */
  lemma WaitersAreServed(l: Limits, init: Cache, steps: seq<Step>, t: ThreadId)
    requires Fresh(l, init) && Legal(l, init, steps) && t in Run(l, init, steps).threads
    requires Run(l, init, steps).threads[t].stage.Waiting?
    ensures var c := Run(l, init, steps);
      Enabled(l, c, Wake(t)) ||
      exists u | IsLeading(c, u) :: c.threads[u].stage.flight == c.threads[t].stage.flight
  {
    RunKeepsFlights(l, init, steps);
    hide Legal, Run, Fresh;
    var c := Run(l, init, steps);
    assert JoinInv(c, t);
    var f := c.threads[t].stage.flight;
    assert Accounted(l, c, f);
    if c.flights[f].outcome.None? {
      assert LedBySomebody(c, c.flights[f].digest);
      assert IsLeading(c, c.flights[f].leader);
    }
  }

  // ---------------------------------------------------------------- recorded bytes

  /** Between the capacity check and the insert. */
  predicate InWindow(thread: Thread) {
    thread.stage.Leading? && (thread.stage.lead.Cleared? || thread.stage.lead.Published?)
  }

  /** The entries that threads in the window are about to record. */
  function Unrecorded(c: Cache): Entries {
    map t | t in c.threads && InWindow(c.threads[t]) :: c.threads[t].entry
  }

  /** The largest resource that can pass both the descriptor's check and the capacity check. */
  function Largest(l: Limits): nat {
    if l.maximumResourceBytes < l.maximumBytes then l.maximumResourceBytes else l.maximumBytes
  }

  /** The bytes that are recorded or about to be are within the bound. */
  ghost predicate BytesInv(l: Limits, c: Cache, k: nat)
    requires k > 0
  {
    && (forall t | t in c.threads :: c.threads[t].entry.length <= l.maximumResourceBytes)
    && (forall t | t in Unrecorded(c) :: Unrecorded(c)[t].length <= Largest(l))
    && Total(c.entries) + Total(Unrecorded(c)) <= l.maximumBytes + (k - 1) * Largest(l)
  }

  lemma {:induction false} TotalAtMost(m: Entries, each: nat)
    requires forall d | d in m :: m[d].length <= each
    ensures Total(m) <= |m| * each
    decreases |m|
  {
    if m != map[] {
      var d :| d in m;
      TotalWithout(m, d);
      TotalAtMost(m - {d}, each);
      assert |m - {d}| == |m| - 1;
      assert (|m| - 1) * each + each == |m| * each;
    }
  }

  lemma OneThreadMoves(c: Cache, c': Cache, t: ThreadId, thread: Thread)
    requires c'.threads == c.threads[t := thread]
    ensures Unrecorded(c') == if InWindow(thread) then Unrecorded(c)[t := thread.entry] else Unrecorded(c) - {t}
  {
  }

  lemma Waits(l: Limits, c: Cache, s: Step)
    requires Enabled(l, c, s)
    ensures s.MakeRoom? ==>
      s.thread !in Unrecorded(c) && Unrecorded(Apply(l, c, s)) == Unrecorded(c)[s.thread := c.threads[s.thread].entry]
    ensures s.Record? ==> s.thread in Unrecorded(c) && Unrecorded(c)[s.thread] == c.threads[s.thread].entry
    ensures s.Record? || s.PublishFailed? ==> Unrecorded(Apply(l, c, s)) == Unrecorded(c) - {s.thread}
    ensures !s.MakeRoom? && !s.Record? && !s.PublishFailed? ==> Unrecorded(Apply(l, c, s)) == Unrecorded(c)
  {
    hide Total;
    if !s.Pin? && !s.Unpin? {
      var after := Apply(l, c, s);
      OneThreadMoves(c, after, s.thread, after.threads[s.thread]);
    }
  }

  lemma UpsertAddsAtMost(m: Entries, d: Digest, e: Entry)
    ensures Total(Upsert(m, d, e)) <= Total(m) + e.length
  {
    var row := Upsert(m, d, e)[d];
    if d in m { TotalWithout(m, d); }
    TotalInsert(m - {d}, d, row);
    assert m - {d} == if d in m then m - {d} else m;
    assert (m - {d})[d := row] == Upsert(m, d, e);
  }

  /** Only recording adds bytes. */
  lemma RecordedAfter(l: Limits, c: Cache, s: Step)
    requires Enabled(l, c, s)
    ensures Total(Apply(l, c, s).entries) <=
      Total(c.entries) + if s.Record? && s.ok then c.threads[s.thread].entry.length else 0
  {
    var after := Apply(l, c, s).entries;
    if s.Record? && s.ok {
      UpsertAddsAtMost(c.entries, c.threads[s.thread].digest, c.threads[s.thread].entry);
    } else if s.Hit? || s.Pin? || s.Unpin? {
      TotalByLength(c.entries, after);
    } else if s.NoRoom? {
      TotalByLength(c.entries - s.evicted, after);
      TotalMonotone(c.entries - s.evicted, c.entries);
    } else {
      TotalMonotone(after, c.entries);
    }
  }

  lemma AllButOne(m: Entries, t: ThreadId, k: nat, each: nat)
    requires k > 0 && t in m && |m| <= k && forall u | u in m :: m[u].length <= each
    ensures Total(m) <= m[t].length + (k - 1) * each
  {
    var others := m - {t};
    TotalWithout(m, t);
    TotalAtMost(others, each);
    assert |others| == |m| - 1;
    TimesAtMost(|others|, k - 1, each);
  }

  lemma TimesAtMost(a: nat, b: nat, each: nat)
    requires a <= b
    ensures a * each <= b * each
  {
  }

  lemma BoundInResources(l: Limits, n: nat)
    ensures n * Largest(l) <= n * l.maximumResourceBytes
  {
  }

  lemma StepKeepsBytes(l: Limits, c: Cache, s: Step, k: nat)
    requires k > 0 && BytesInv(l, c, k) && Enabled(l, c, s) && |Unrecorded(Apply(l, c, s))| <= k
    ensures BytesInv(l, Apply(l, c, s), k)
  {
    Waits(l, c, s);
    RecordedAfter(l, c, s);
    var after := Apply(l, c, s);
    LengthsKept(l, c, s);
    if s.MakeRoom? {
      AllButOne(Unrecorded(after), s.thread, k, Largest(l));
    } else if s.Record? {
      TotalWithout(Unrecorded(c), s.thread);
    } else if s.PublishFailed? {
      TotalMonotone(Unrecorded(after), Unrecorded(c));
    }
  }

  lemma LengthsKept(l: Limits, c: Cache, s: Step)
    requires Enabled(l, c, s) && forall t | t in c.threads :: c.threads[t].entry.length <= l.maximumResourceBytes
    ensures forall t | t in Apply(l, c, s).threads :: Apply(l, c, s).threads[t].entry.length <= l.maximumResourceBytes
  {
    hide Total;
  }

  /** Never more than `k` leaders are between the capacity check and the insert. */
  ghost predicate AtMostInWindow(l: Limits, init: Cache, steps: seq<Step>, k: nat) {
    forall i | 0 <= i <= |steps| :: Legal(l, init, steps[..i]) && |Unrecorded(Run(l, init, steps[..i]))| <= k
  }

  lemma FreshBytes(l: Limits, init: Cache, k: nat)
    requires k > 0 && Fresh(l, init)
    ensures BytesInv(l, init, k)
  {
    assert Unrecorded(init) == map[];
    assert (k - 1) * Largest(l) >= 0;
  }

  lemma {:induction false} RunKeepsBytes(l: Limits, init: Cache, steps: seq<Step>, k: nat)
    requires k > 0 && Fresh(l, init) && Legal(l, init, steps) && AtMostInWindow(l, init, steps, k)
    ensures BytesInv(l, Run(l, init, steps), k)
  {
    hide Enabled, Apply, BytesInv, Fresh, Unrecorded;
    if steps == [] {
      FreshBytes(l, init, k);
    } else {
      var before := steps[..|steps| - 1];
      forall i | 0 <= i <= |before|
        ensures Legal(l, init, before[..i]) && |Unrecorded(Run(l, init, before[..i]))| <= k
      {
        assert before[..i] == steps[..i];
      }
      RunKeepsBytes(l, init, before, k);
      assert steps[..|steps|] == steps;
      StepKeepsBytes(l, Run(l, init, before), steps[|steps| - 1], k);
    }
  }

  /** With never more than `k` leaders between the capacity check and the insert, the
      recorded bytes exceed the maximum by at most `k - 1` resources. */
  lemma RecordedBytesBounded(l: Limits, init: Cache, steps: seq<Step>, k: nat)
    requires k > 0 && Fresh(l, init) && Legal(l, init, steps) && AtMostInWindow(l, init, steps, k)
    ensures Total(Run(l, init, steps).entries) <= l.maximumBytes + (k - 1) * Largest(l)
    ensures Total(Run(l, init, steps).entries) <= l.maximumBytes + (k - 1) * l.maximumResourceBytes
  {
    hide Legal, Run, AtMostInWindow, Fresh;
    RunKeepsBytes(l, init, steps, k);
    BoundInResources(l, k - 1);
    hide Total, Largest;
  }
}
