/** The eviction code and the steps of the threaded cache: what `evict_for` does while it
    holds the store's lock is one step of the thread that calls it. */
module CacheEviction {
  import opened Options
  import opened Bytes
  import opened CacheEntries
  import opened CacheFlights
  import opened ResourceCache

  /** The steps that `evict_for` can be: room was made, or the acquisition fails. */
  ghost predicate EvictionStep(s: Step, t: ThreadId, bytes: Bytes, made: bool) {
    if made then s.MakeRoom? && s.thread == t && s.bytes == bytes else s.NoRoom? && s.thread == t
  }

  lemma EvictedIsAStep(l: Limits, c: Cache, t: ThreadId, bytes: Bytes, order: seq<Digest>, k: nat, made: bool)
      returns (s: Step)
    requires IsAcquiring(c, t) && l.sha(bytes) == c.threads[t].digest && |bytes| == c.threads[t].entry.length
    requires k <= |order| && IsLruOrder(c.entries, order)
    requires made ==> Total(c.entries - Claimable(c.entries, order[..k])) + |bytes| <= l.maximumBytes
    ensures Enabled(l, c, s) && EvictionStep(s, t, bytes, made)
    ensures Apply(l, c, s).entries == c.entries - Claimable(c.entries, order[..k])
  {
    var evicted := Claimable(c.entries, order[..k]);
    s := if made then MakeRoom(t, bytes, evicted) else NoRoom(t, evicted, None);
  }

  lemma StuckIsAStep(l: Limits, c: Cache, t: ThreadId, bytes: Bytes, order: seq<Digest>, k: nat, m: Entries)
      returns (s: Step)
    requires IsAcquiring(c, t) && k < |order| && IsLruOrder(c.entries, order)
    requires var left := c.entries - Claimable(c.entries, order[..k]);
      order[k] in left && (m == left || m == Claimed(left, order[k]))
    ensures Enabled(l, c, s) && EvictionStep(s, t, bytes, false) && Apply(l, c, s).entries == m
  {
    var evicted := Claimable(c.entries, order[..k]);
    s := NoRoom(t, evicted, if m == c.entries - evicted then None else Some(order[k]));
  }

  /** The store's lock is held throughout: whatever `evict_for` does to the recorded entries
      is a step of the calling thread, and it makes room exactly when it reports success. */
  method EvictUnderLock(store: DocumentResourceCache, ghost l: Limits, ghost c: Cache, ghost t: ThreadId, bytes: Bytes)
    returns (made: bool, ghost s: Step)
    requires store.entries == c.entries && store.maximumBytes == l.maximumBytes
    requires IsAcquiring(c, t) && l.sha(bytes) == c.threads[t].digest && |bytes| == c.threads[t].entry.length
    modifies store
    ensures Enabled(l, c, s) && EvictionStep(s, t, bytes, made) && Apply(l, c, s).entries == store.entries
  {
    hide Total, Enabled, Apply;
    var failed, order, k := store.EvictFor(|bytes|);
    made := failed.None?;
    if failed == Some(Metadata) {
      if store.entries == c.entries {
        s := NothingIsAStep(l, c, t, bytes);
      } else {
        s := StuckIsAStep(l, c, t, bytes, order, k, store.entries);
      }
    } else {
      s := EvictedIsAStep(l, c, t, bytes, order, k, made);
    }
  }

  lemma NothingIsAStep(l: Limits, c: Cache, t: ThreadId, bytes: Bytes) returns (s: Step)
    requires IsAcquiring(c, t)
    ensures Enabled(l, c, s) && EvictionStep(s, t, bytes, false) && Apply(l, c, s).entries == c.entries
  {
    s := NoRoom(t, {}, None);
    assert c.entries - {} == c.entries;
  }
}
