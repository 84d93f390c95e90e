/** Recorded cache entries: their total size and their eviction order. A digest is
    the number its 64 hexadecimal digits spell, so numeric order is text order. */
module CacheEntries {
  type Digest = nat

  datatype Entry = Entry(media: string, length: nat, access: int, refs: nat, evicting: bool)

  type Entries = map<Digest, Entry>

  // ---------------------------------------------------------------- total size

  ghost function Total(m: Entries): nat {
    if m == map[] then 0
    else
      var d :| d in m;
      m[d].length + Total(m - {d})
  }

  lemma {:induction false} TotalWithout(m: Entries, d: Digest)
    requires d in m
    ensures Total(m) == m[d].length + Total(m - {d})
    decreases |m|
  {
    var e :| e in m && Total(m) == m[e].length + Total(m - {e});
    if e != d {
      TotalWithout(m - {e}, d);
      TotalWithout(m - {d}, e);
      assert m - {e} - {d} == m - {d} - {e};
    }
  }

  lemma TotalInsert(m: Entries, d: Digest, e: Entry)
    requires d !in m
    ensures Total(m[d := e]) == Total(m) + e.length
  {
    TotalWithout(m[d := e], d);
    assert m[d := e] - {d} == m;
  }

  /** Entries with the same lengths have the same total. */
  lemma {:induction false} TotalByLength(m: Entries, m': Entries)
    requires m.Keys == m'.Keys && forall d | d in m :: m[d].length == m'[d].length
    ensures Total(m) == Total(m')
    decreases |m|
  {
    if m != map[] {
      var d :| d in m;
      TotalWithout(m, d);
      TotalWithout(m', d);
      TotalByLength(m - {d}, m' - {d});
    }
  }

  lemma {:induction false} TotalMonotone(m: Entries, m': Entries)
    requires m.Keys <= m'.Keys && forall d | d in m :: m[d] == m'[d]
    ensures Total(m) <= Total(m')
    decreases |m|
  {
    if m != map[] {
      var d :| d in m;
      TotalWithout(m, d);
      TotalWithout(m', d);
      TotalMonotone(m - {d}, m' - {d});
    }
  }

  function Pinned(m: Entries): Entries {
    map d | d in m && m[d].refs > 0 :: m[d]
  }

  // ---------------------------------------------------------------- eviction order

  predicate Before(m: Entries, a: Digest, b: Digest)
    requires a in m && b in m
  {
    m[a].access < m[b].access || (m[a].access == m[b].access && a < b)
  }

  /** The unpinned digests, least recently used first. */
  ghost predicate IsLruOrder(m: Entries, order: seq<Digest>) {
    && (forall d :: d in order <==> d in m && m[d].refs == 0)
    && (forall i, k | 0 <= i < k < |order| :: Before(m, order[i], order[k]))
  }

  lemma {:induction false} Oldest(m: Entries, ds: set<Digest>) returns (oldest: Digest)
    requires ds != {} && ds <= m.Keys
    ensures oldest in ds && forall d | d in ds && d != oldest :: Before(m, oldest, d)
    decreases |ds|
  {
    var first :| first in ds;
    oldest := first;
    if ds != {first} {
      var rest := ds - {first};
      var other := Oldest(m, rest);
      assert forall d | d in ds && d != first :: d in rest;
      if Before(m, other, first) { oldest := other; }
    }
  }

  /** `unreferenced_document_resources_lru`. */
  method UnpinnedLru(m: Entries) returns (order: seq<Digest>)
    ensures IsLruOrder(m, order)
    ensures forall i, k | 0 <= i < k < |order| && order[i] in m && order[k] in m ::
      m[order[i]].access < m[order[k]].access ||
      (m[order[i]].access == m[order[k]].access && order[i] < order[k])
  {
    order := [];
    var left := set d | d in m && m[d].refs == 0;
    while left != {}
      invariant forall d | d in left :: d in m && m[d].refs == 0
      invariant forall d :: d in m && m[d].refs == 0 <==> d in left || d in order
      invariant forall i, k | 0 <= i < k < |order| :: Before(m, order[i], order[k])
      invariant forall i, d | 0 <= i < |order| && d in left :: Before(m, order[i], d)
    {
      ghost var oldest := Oldest(m, left);
      var d :| d in left && forall e | e in left && e != d :: Before(m, d, e);
      left := left - {d};
      order := order + [d];
    }
  }

  /** `document_resource_usage`. */
  method Usage(m: Entries) returns (total: nat)
    ensures total == Total(m)
  {
    total := 0;
    var left := m;
    while left != map[]
      invariant total + Total(left) == Total(m)
      decreases |left|
    {
      var d :| d in left;
      TotalWithout(left, d);
      total := total + left[d].length;
      left := left - {d};
    }
  }
}
