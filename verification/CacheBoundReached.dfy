/** The bound of `CacheRuns.RecordedBytesBounded` is reached for every `k` and all limits:
    as many leaders pass the capacity check of a cache that has room for one more of the
    largest resources, and then all record. */
module CacheBoundReached {
  import opened Options
  import opened Bytes
  import opened CacheEntries
  import opened CacheFlights
  import opened CacheRuns

  /** A cache whose one entry leaves room for exactly one of the largest resources. */
  function FirstCache(l: Limits, spare: Digest): Cache {
    Cache(map[spare := Entry("image/jpeg", l.maximumBytes - Largest(l), 0, 0, false)], map[], map[], map[])
  }

  lemma FirstCacheTotal(l: Limits, spare: Digest)
    ensures Total(FirstCache(l, spare).entries) == l.maximumBytes - Largest(l)
    ensures Fresh(l, FirstCache(l, spare))
  {
    TotalWithout(FirstCache(l, spare).entries, spare);
    assert FirstCache(l, spare).entries - {spare} == map[];
  }

  /** Distinct resources, each as large as a resource can be. */
  predicate Fill(l: Limits, spare: Digest, contents: seq<Bytes>) {
    && (forall i | 0 <= i < |contents| :: |contents[i]| == Largest(l) && l.sha(contents[i]) != spare)
    && (forall i, j | 0 <= i < j < |contents| :: l.sha(contents[i]) != l.sha(contents[j]))
  }

  function Row(l: Limits): Entry {
    Entry("image/jpeg", Largest(l), 0, 0, false)
  }

  function AtLead(l: Limits, bytes: Bytes, i: nat, lead: Lead): Thread {
    Thread(l.sha(bytes), Row(l), Leading(i, lead))
  }

  /** The first `n` resources have leaders that passed the check, and the first
      `recorded` of those are recorded. */
  ghost predicate Progress(l: Limits, spare: Digest, contents: seq<Bytes>, c: Cache, n: nat, recorded: nat) {
    && recorded <= n <= |contents|
    && (forall i: nat :: i in c.threads <==> i < n)
    && (forall i: nat :: i in c.flights <==> i < n)
    && Known(l, spare, contents[..n], c)
    && (forall i | recorded <= i < n :: c.threads[i] == AtLead(l, contents[i], i, Cleared(contents[i])))
    && (forall i | recorded <= i < n :: l.sha(contents[i]) !in c.entries)
    && Total(c.entries) == l.maximumBytes - Largest(l) + recorded * Largest(l)
  }

  /** Every digest in the cache is that of one of the resources. */
  ghost predicate Known(l: Limits, spare: Digest, contents: seq<Bytes>, c: Cache) {
    forall d | d in c.table || (d in c.entries && d != spare) :: IsOneOf(l, contents, d)
  }

  predicate IsOneOf(l: Limits, contents: seq<Bytes>, d: Digest) {
    exists i | 0 <= i < |contents| :: l.sha(contents[i]) == d
  }

  lemma Then(l: Limits, spare: Digest, steps: seq<Step>, s: Step)
    requires Legal(l, FirstCache(l, spare), steps) && Enabled(l, Run(l, FirstCache(l, spare), steps), s)
    ensures Legal(l, FirstCache(l, spare), steps + [s])
    ensures Run(l, FirstCache(l, spare), steps + [s]) == Apply(l, Run(l, FirstCache(l, spare), steps), s)
  {
    assert (steps + [s])[..|steps|] == steps;
  }

  lemma {:induction false} Clear(l: Limits, spare: Digest, contents: seq<Bytes>, n: nat) returns (steps: seq<Step>)
    requires Fill(l, spare, contents) && n <= |contents|
    ensures Legal(l, FirstCache(l, spare), steps) &&
      Progress(l, spare, contents, Run(l, FirstCache(l, spare), steps), n, 0)
  {
    if n == 0 {
      steps := [];
      FirstCacheTotal(l, spare);
    } else {
      var i := n - 1;
      steps := Clear(l, spare, contents, i);
      var c := Run(l, FirstCache(l, spare), steps);
      NotAmong(l, spare, contents, i);
      LeadOne(l, c, contents[i], i);
      CheckOne(l, c, contents[i], i);
      ClearOne(l, spare, contents, c, i);
      hide Legal, Run, Progress, Apply, Enabled;
      Then(l, spare, steps, Begin(i, l.sha(contents[i]), Row(l)));
      steps := steps + [Begin(i, l.sha(contents[i]), Row(l))];
      Then(l, spare, steps, Miss(i, false));
      steps := steps + [Miss(i, false)];
      Then(l, spare, steps, Join(i, i));
      steps := steps + [Join(i, i)];
      Then(l, spare, steps, MakeRoom(i, contents[i], {}));
      steps := steps + [MakeRoom(i, contents[i], {})];
    }
  }

  lemma NotAmong(l: Limits, spare: Digest, contents: seq<Bytes>, n: nat)
    requires Fill(l, spare, contents) && n < |contents|
    ensures !IsOneOf(l, contents[..n], l.sha(contents[n]))
  {
  }

  /** The cache once thread `i` leads flight `i` for its resource. */
  function Led(l: Limits, c: Cache, bytes: Bytes, i: nat, lead: Lead): Cache {
    c.(threads := c.threads[i := AtLead(l, bytes, i, lead)],
       table := c.table[l.sha(bytes) := i], flights := c.flights[i := Flight(l.sha(bytes), i, None, None)])
  }

  lemma LeadOne(l: Limits, c: Cache, bytes: Bytes, i: nat)
    requires i !in c.threads && i !in c.flights && l.sha(bytes) !in c.table
    ensures Enabled(l, c, Begin(i, l.sha(bytes), Row(l)))
    ensures var c1 := Apply(l, c, Begin(i, l.sha(bytes), Row(l)));
      && Enabled(l, c1, Miss(i, false))
      && var c2 := Apply(l, c1, Miss(i, false));
      && Enabled(l, c2, Join(i, i))
      && Apply(l, c2, Join(i, i)) == Led(l, c, bytes, i, Acquiring)
  {
    hide Total;
  }

  lemma CheckOne(l: Limits, c: Cache, bytes: Bytes, i: nat)
    requires |bytes| == Largest(l) && Total(c.entries) + Largest(l) <= l.maximumBytes
    ensures Enabled(l, Led(l, c, bytes, i, Acquiring), MakeRoom(i, bytes, {}))
    ensures Apply(l, Led(l, c, bytes, i, Acquiring), MakeRoom(i, bytes, {})) == Led(l, c, bytes, i, Cleared(bytes))
  {
    hide Total;
    assert c.entries - {} == c.entries;
  }

  /** One more leader has passed the check; nothing is recorded yet. */
  lemma ClearOne(l: Limits, spare: Digest, contents: seq<Bytes>, c: Cache, i: nat)
    requires Fill(l, spare, contents) && i < |contents| && Progress(l, spare, contents, c, i, 0)
    ensures Progress(l, spare, contents, Led(l, c, contents[i], i, Cleared(contents[i])), i + 1, 0)
  {
    hide Total, IsOneOf, Largest;
    LedKnown(l, spare, contents, c, i);
    NotAmong(l, spare, contents, i);
    OnlyKnown(l, spare, contents, c, i);
    hide Known;
  }

  lemma LedKnown(l: Limits, spare: Digest, contents: seq<Bytes>, c: Cache, i: nat)
    requires i < |contents| && Known(l, spare, contents[..i], c)
    ensures Known(l, spare, contents[..i + 1], Led(l, c, contents[i], i, Cleared(contents[i])))
  {
    OneMore(l, contents, i);
    hide IsOneOf;
  }

  lemma OnlyKnown(l: Limits, spare: Digest, contents: seq<Bytes>, c: Cache, i: nat)
    requires Fill(l, spare, contents) && i < |contents| && Known(l, spare, contents[..i], c)
    ensures l.sha(contents[i]) !in c.entries && l.sha(contents[i]) !in c.table
  {
    NotAmong(l, spare, contents, i);
    hide IsOneOf;
  }

  lemma OneMore(l: Limits, contents: seq<Bytes>, n: nat)
    requires n < |contents|
    ensures IsOneOf(l, contents[..n + 1], l.sha(contents[n]))
    ensures forall d | IsOneOf(l, contents[..n], d) :: IsOneOf(l, contents[..n + 1], d)
  {
    assert contents[..n + 1][n] == contents[n];
    forall d | IsOneOf(l, contents[..n], d) ensures IsOneOf(l, contents[..n + 1], d) {
      var i :| 0 <= i < n && l.sha(contents[..n][i]) == d;
      assert contents[..n + 1][i] == contents[..n][i];
    }
  }

  lemma {:induction false} RecordAll(l: Limits, spare: Digest, contents: seq<Bytes>, n: nat) returns (steps: seq<Step>)
    requires Fill(l, spare, contents) && n <= |contents|
    ensures Legal(l, FirstCache(l, spare), steps) &&
      Progress(l, spare, contents, Run(l, FirstCache(l, spare), steps), |contents|, n)
  {
    hide Legal, Run, Progress, Apply, Enabled, Fill, Largest;
    if n == 0 {
      steps := Clear(l, spare, contents, |contents|);
    } else {
      steps := RecordAll(l, spare, contents, n - 1);
      RecordOne(l, spare, contents, Run(l, FirstCache(l, spare), steps), n - 1);
      Then(l, spare, steps, Publish(n - 1));
      steps := steps + [Publish(n - 1)];
      Then(l, spare, steps, Record(n - 1, true));
      steps := steps + [Record(n - 1, true)];
    }
  }

  /** A leader that passed the check records its resource without another. */
  lemma RecordOne(l: Limits, spare: Digest, contents: seq<Bytes>, c: Cache, i: nat)
    requires Fill(l, spare, contents) && i < |contents| && Progress(l, spare, contents, c, |contents|, i)
    ensures Enabled(l, c, Publish(i))
    ensures var c1 := Apply(l, c, Publish(i));
      Enabled(l, c1, Record(i, true)) && Progress(l, spare, contents, Apply(l, c1, Record(i, true)), |contents|, i + 1)
  {
    TotalInsert(c.entries, l.sha(contents[i]), Row(l));
    assert contents[..|contents|] == contents;
    assert (i + 1) * Largest(l) == i * Largest(l) + Largest(l);
  }

  lemma {:induction false} ThreadsStay(l: Limits, spare: Digest, steps: seq<Step>, i: nat)
    requires Legal(l, FirstCache(l, spare), steps) && i <= |steps|
    ensures Legal(l, FirstCache(l, spare), steps[..i])
    ensures Run(l, FirstCache(l, spare), steps[..i]).threads.Keys <= Run(l, FirstCache(l, spare), steps).threads.Keys
  {
    if i == |steps| {
      assert steps[..i] == steps;
    } else {
      var before := steps[..|steps| - 1];
      ThreadsStay(l, spare, before, i);
      assert before[..i] == steps[..i];
      StepKeepsThreads(l, Run(l, FirstCache(l, spare), before), steps[|steps| - 1]);
      hide Apply, Enabled;
    }
  }

  lemma StepKeepsThreads(l: Limits, c: Cache, s: Step)
    requires Enabled(l, c, s)
    ensures c.threads.Keys <= Apply(l, c, s).threads.Keys
  {
    hide Total;
  }

  lemma AtMostAllThreads(c: Cache, threads: set<ThreadId>)
    requires c.threads.Keys <= threads
    ensures |Unrecorded(c)| <= |threads|
  {
    var waiting := Unrecorded(c).Keys;
    assert waiting <= threads;
    SmallerSubset(waiting, threads);
    assert |waiting| == |Unrecorded(c)|;
  }

  lemma {:induction false} SmallerSubset(a: set<ThreadId>, b: set<ThreadId>)
    requires a <= b
    ensures |a| <= |b|
  {
    if a != {} {
      var x :| x in a;
      SmallerSubset(a - {x}, b - {x});
    }
  }

  lemma {:induction false} FirstNumbers(s: set<nat>, n: nat)
    requires forall i: nat :: i in s <==> i < n
    ensures |s| == n
  {
    if n == 0 {
      assert s == {};
    } else {
      FirstNumbers(s - {n - 1}, n - 1);
    }
  }

  /** Whatever the limits, some interleaving with at most `k` leaders in the window records
      exactly the maximum plus `k - 1` of the largest resources. */
  lemma BoundIsReached(l: Limits, spare: Digest, contents: seq<Bytes>) returns (steps: seq<Step>)
    requires Fill(l, spare, contents) && |contents| > 0
    ensures Fresh(l, FirstCache(l, spare)) && Legal(l, FirstCache(l, spare), steps)
    ensures AtMostInWindow(l, FirstCache(l, spare), steps, |contents|)
    ensures Total(Run(l, FirstCache(l, spare), steps).entries) == l.maximumBytes + (|contents| - 1) * Largest(l)
  {
    steps := RecordAll(l, spare, contents, |contents|);
    var c := Run(l, FirstCache(l, spare), steps);
    FirstNumbers(c.threads.Keys, |contents|);
    assert |contents| * Largest(l) == Largest(l) + (|contents| - 1) * Largest(l);
    FirstCacheTotal(l, spare);
    hide Legal, Run, Apply, Enabled;
    forall i | 0 <= i <= |steps|
      ensures Legal(l, FirstCache(l, spare), steps[..i]) &&
        |Unrecorded(Run(l, FirstCache(l, spare), steps[..i]))| <= |contents|
    {
      ThreadsStay(l, spare, steps, i);
      AtMostAllThreads(Run(l, FirstCache(l, spare), steps[..i]), c.threads.Keys);
    }
  }
}
