/** The document resource cache, one caller at a time. Every read, write and removal
    may fail. A run starts from any files, and other processes may change them between the
    verification of a file and its reading. */
module ResourceCache {
  import opened Options
  import opened Bytes
  import opened CacheEntries

  /** `digest` is absent when the text is not 64 lower-case hexadecimal digits. */
  datatype Descriptor = Descriptor(digest: Option<Digest>, media: string, length: nat)

  datatype Failure = InvalidDescriptor | Limit | DigestMismatch | Acquisition | Io | Metadata
  datatype Result<+T> = Ok(value: T) | Err(error: Failure)

  datatype Read = Content(bytes: Bytes) | Missing | Unreadable

  predicate ValidDescriptor(d: Descriptor, maximumResourceBytes: nat) {
    d.digest.Some? && d.media != "" && d.length <= maximumResourceBytes
  }

  predicate Matches(sha: Bytes -> Digest, bytes: Bytes, digest: Digest, length: nat) {
    |bytes| == length && sha(bytes) == digest
  }

  /** The digests of a list that an eviction may claim. */
  function Claimable(m: Entries, ds: seq<Digest>): set<Digest>
    requires forall d | d in ds :: d in m
  {
    set d | d in ds && !m[d].evicting
  }

  lemma ClaimNext(m: Entries, order: seq<Digest>, k: nat)
    requires k < |order| && IsLruOrder(m, order)
    ensures order[k] in m && order[k] !in Claimable(m, order[..k])
    ensures Claimable(m, order[..k + 1]) == Claimable(m, order[..k]) + (if m[order[k]].evicting then {} else {order[k]})
  {
    assert order[..k + 1] == order[..k] + [order[k]];
    forall d | d in order[..k] ensures d != order[k] {
      var i :| 0 <= i < k && order[i] == d;
      assert Before(m, order[i], order[k]);
    }
  }

  predicate NoneClaimed(m: Entries) {
    forall d | d in m :: !m[d].evicting
  }

  /** When no claim is outstanding, evicting the whole order leaves the pinned entries. */
  lemma OnlyPinnedLeft(m: Entries, order: seq<Digest>)
    requires IsLruOrder(m, order) && NoneClaimed(m)
    ensures m - Claimable(m, order) == Pinned(m)
  {
    var left, pinned := m - Claimable(m, order), Pinned(m);
    assert left.Keys == pinned.Keys;
  }

  /** Whatever prefix is evicted, the pinned entries stay. */
  lemma PinnedStay(m: Entries, order: seq<Digest>, k: nat)
    requires k <= |order| && IsLruOrder(m, order)
    ensures Total(Pinned(m)) <= Total(m - Claimable(m, order[..k]))
  {
    TotalMonotone(Pinned(m), m - Claimable(m, order[..k]));
  }

  /** Every entry evicted had to go: without it there was too little room. */
  ghost predicate NeededFirst(m: Entries, order: seq<Digest>, k: nat, incoming: nat, maximumBytes: nat) {
    k <= |order| && IsLruOrder(m, order) ==>
      forall j | 0 <= j < k :: Total(m - Claimable(m, order[..j])) + incoming > maximumBytes
  }

  /** An eviction that stopped for want of need or of candidates leaves too little room
      exactly when the pinned entries alone do. */
  lemma LimitIff(m: Entries, order: seq<Digest>, k: nat, incoming: nat, maximumBytes: nat)
    requires k <= |order| && IsLruOrder(m, order) && NoneClaimed(m)
    requires k < |order| ==> Total(m - Claimable(m, order[..k])) + incoming <= maximumBytes
    ensures Total(m - Claimable(m, order[..k])) + incoming > maximumBytes <==>
      Total(Pinned(m)) + incoming > maximumBytes
  {
    PinnedStay(m, order, k);
    if k == |order| {
      assert order[..k] == order;
      OnlyPinnedLeft(m, order);
    }
  }

  /** No entry is gone that is pinned or was used later than an unpinned one that could
      have gone instead. */
  predicate OldestGone(m: Entries, m': Entries) {
    forall d, e | d in m && d !in m' && e in m && e in m' && m[e].refs == 0 && !m[e].evicting ::
      m[d].refs == 0 && (m[d].access < m[e].access || (m[d].access == m[e].access && d < e))
  }

  // ---------------------------------------------------------------- restart

  /** `reset_document_resource_transient_state`. */
  function Reset(m: Entries): Entries {
    map d | d in m :: m[d].(refs := 0, evicting := false)
  }

  predicate Sound(sha: Bytes -> Digest, m: Entries, files: map<Digest, Bytes>, d: Digest)
    requires d in m
  {
    d in files && Matches(sha, files[d], d, m[d].length)
  }

  /** The entries whose file still has the recorded digest and length. */
  function SoundOnly(sha: Bytes -> Digest, m: Entries, files: map<Digest, Bytes>): Entries {
    map d | d in m && Sound(sha, m, files, d) :: m[d]
  }

  /** The digests of a list whose file fails verification. */
  function Unsound(sha: Bytes -> Digest, m: Entries, files: map<Digest, Bytes>, ds: seq<Digest>): set<Digest>
    requires forall d | d in ds :: d in m
  {
    set d | d in ds && !Sound(sha, m, files, d)
  }

  lemma CheckOne(sha: Bytes -> Digest, m: Entries, files: map<Digest, Bytes>, order: seq<Digest>, k: nat)
    requires k < |order| && IsLruOrder(m, order)
    ensures order[k] in m && order[k] !in Unsound(sha, m, files, order[..k])
    ensures Unsound(sha, m, files, order[..k + 1])
         == Unsound(sha, m, files, order[..k]) + (if Sound(sha, m, files, order[k]) then {} else {order[k]})
  {
    assert order[..k + 1] == order[..k] + [order[k]];
    forall d | d in order[..k] ensures d != order[k] {
      var i :| 0 <= i < k && order[i] == d;
      assert Before(m, order[i], order[k]);
    }
  }

  lemma SoundOnlyLeft(sha: Bytes -> Digest, m: Entries, files: map<Digest, Bytes>, order: seq<Digest>)
    requires IsLruOrder(m, order) && Pinned(m) == map[]
    ensures m - Unsound(sha, m, files, order) == SoundOnly(sha, m, files)
  {
    forall d | d in m ensures d in order {
      assert d !in Pinned(m);
    }
  }

  /** No pinned entry is dropped, and none changes but for its access time. */
  predicate PinsKept(m: Entries, m': Entries) {
    forall d | d in Pinned(m) :: d in m' && m'[d] == m[d].(access := m'[d].access)
  }

  /** The file of a pinned entry is neither removed nor rewritten. */
  predicate PinnedFilesKept(m: Entries, files: map<Digest, Bytes>, files': map<Digest, Bytes>) {
    forall d | d in Pinned(m) && d in files :: d in files' && files'[d] == files[d]
  }

  /** An eviction keeps the pinned entries, their files and the absence of claims. */
  lemma EvictionKeeps(m: Entries, files: map<Digest, Bytes>, order: seq<Digest>, k: nat)
    requires k <= |order| && IsLruOrder(m, order)
    ensures PinsKept(m, m - Claimable(m, order[..k]))
    ensures PinnedFilesKept(m, files, files - Claimable(m, order[..k]))
    ensures NoneClaimed(m) ==> NoneClaimed(m - Claimable(m, order[..k]))
  {
  }

  /** Nor does a failure of the store touch what is pinned. */
  lemma StuckKeeps(m: Entries, files: map<Digest, Bytes>, order: seq<Digest>, k: nat, m': Entries,
      files': map<Digest, Bytes>)
    requires k < |order| && IsLruOrder(m, order) && order[k] in m - Claimable(m, order[..k])
    requires var left := m - Claimable(m, order[..k]);
      m' == left || m' == left[order[k] := left[order[k]].(evicting := true)]
    requires var left := files - Claimable(m, order[..k]); files' == left || files' == left - {order[k]}
    ensures PinsKept(m, m') && PinnedFilesKept(m, files, files')
  {
    assert order[k] in order;
  }

  // ---------------------------------------------------------------- documents

  /** An image of a document. Its digest text may lack the `sha256:` prefix. */
  datatype Image = Image(prefixed: bool, digest: Option<Digest>, media: string, length: nat)

  /** `m` gives every declared image bytes of its declared digest and length. */
  predicate AsDeclared(sha: Bytes -> Digest, images: map<string, Image>, m: map<string, Bytes>) {
    && m.Keys == images.Keys
    && forall id | id in images ::
      images[id].digest.Some? && Matches(sha, m[id], images[id].digest.value, images[id].length)
  }

  predicate AllJpeg(images: map<string, Image>) {
    forall id | id in images :: images[id].media == "image/jpeg" && images[id].prefixed
  }

  /** Acquisition without a cache: ask for every image and check what comes back. */
  function Direct(sha: Bytes -> Digest, images: map<string, Image>,
      acquired: map<string, Bytes>): Result<map<string, Bytes>>
  {
    if AsDeclared(sha, images, acquired) then Ok(acquired) else Err(DigestMismatch)
  }

  ghost predicate CollisionFree(sha: Bytes -> Digest, bytes: set<Bytes>) {
    forall a, b | a in bytes && b in bytes && sha(a) == sha(b) :: a == b
  }

  /** What the cache returned for a document is what direct acquisition would give. */
  lemma SameAsDirect(sha: Bytes -> Digest, images: map<string, Image>, cached: map<string, Bytes>,
      acquired: map<string, Bytes>)
    requires AsDeclared(sha, images, cached) && Direct(sha, images, acquired).Ok?
    requires CollisionFree(sha, cached.Values + acquired.Values)
    ensures Direct(sha, images, acquired) == Ok(cached)
  {
    forall id | id in images ensures cached[id] == acquired[id] {
      assert cached[id] in cached.Values && acquired[id] in acquired.Values;
    }
    assert cached == acquired;
  }

  class DocumentResourceCache {
    const sha: Bytes -> Digest
    const maximumBytes: nat
    const maximumResourceBytes: nat
    var entries: Entries
    var files: map<Digest, Bytes>

    /** Each of these may fail at any time. */
    method ReadFile(d: Digest) returns (r: Read)
      ensures r.Content? ==> d in files && r.bytes == files[d]
      ensures r.Missing? ==> d !in files
    {
      var fail: bool := *;
      r := if fail then Unreadable else if d in files then Content(files[d]) else Missing;
    }

    method RemoveFile(d: Digest) returns (ok: bool)
      modifies this`files
      ensures files == if ok then old(files) - {d} else old(files)
    {
      ok := *;
      if ok { files := files - {d}; }
    }

    method VerifyFile(d: Digest, length: nat) returns (r: Result<bool>)
      ensures r.Ok? ==> (r.value <==> d in files && |files[d]| == length && sha(files[d]) == d)
      ensures r.Err? ==> r.error == Io
    {
      var read := ReadFile(d);
      match read
      case Content(bytes) => r := Ok(Matches(sha, bytes, d, length));
      case Missing => r := Ok(false);
      case Unreadable => r := Err(Io);
    }

    // -------------------------------------------------------------- eviction

    ghost predicate EvictedFirst(m: Entries, fs: map<Digest, Bytes>, order: seq<Digest>, k: nat)
      reads this
    {
      && k <= |order| && IsLruOrder(m, order)
      && entries == m - Claimable(m, order[..k]) && files == fs - Claimable(m, order[..k])
    }

    /** The store failed while candidate `k` was being evicted: its claim may be left
        behind, and its file may be gone. */
    ghost predicate StuckAt(m: Entries, fs: map<Digest, Bytes>, order: seq<Digest>, k: nat)
      reads this
    {
      && k < |order| && IsLruOrder(m, order)
      && var left, d := m - Claimable(m, order[..k]), order[k];
      && d in left
      && (entries == left || entries == left[d := left[d].(evicting := true)])
      && (files == fs - Claimable(m, order[..k]) || files == fs - Claimable(m, order[..k]) - {d})
    }

    /** Claims, removes and forgets one candidate; a failed removal gives the claim back. */
    method EvictNext(order: seq<Digest>, k: nat, usage: nat, ghost m: Entries, ghost fs: map<Digest, Bytes>)
      returns (failed: Option<Failure>, usage': nat)
      requires k < |order| && EvictedFirst(m, fs, order, k) && usage == Total(entries)
      modifies this`entries, this`files
      ensures failed.None? ==> EvictedFirst(m, fs, order, k + 1) && usage' == Total(entries)
      ensures failed == Some(Io) ==> EvictedFirst(m, fs, order, k)
      ensures failed.Some? && failed != Some(Io) ==> failed == Some(Metadata) && StuckAt(m, fs, order, k)
    {
      var d := order[k];
      usage' := usage;
      ClaimNext(m, order, k);
      hide IsLruOrder, Claimable;
      if entries[d].evicting { return None, usage; }
      var entry := entries[d];
      var claimed: bool := *;
      if !claimed { return Some(Metadata), usage; }
      entries := entries[d := entry.(evicting := true)];
      var removed := RemoveFile(d);
      var stored: bool := *;
      if !stored { return Some(Metadata), usage; }
      if !removed {
        entries := entries[d := entry.(evicting := false)];
        assert entries == old(entries);
        return Some(Io), usage;
      }
      TotalWithout(old(entries), d);
      entries := entries - {d};
      failed, usage' := None, usage - entry.length;
      assert entries == old(entries) - {d};
    }

    /** Removes the least recently used unpinned entries, `order[..k]` apart from those
        an earlier eviction still claims, and nothing more than is needed to make room.
        Unless a removal or the store fails, and with no claim outstanding, it reports
        `Limit` exactly when the pinned entries leave too little room. */
    method EvictFor(incoming: nat) returns (failed: Option<Failure>, order: seq<Digest>, k: nat)
      modifies this`entries, this`files
      ensures failed == Some(Metadata) ==>
        StuckAt(old(entries), old(files), order, k) || (entries == old(entries) && files == old(files))
      ensures failed != Some(Metadata) ==> EvictedFirst(old(entries), old(files), order, k)
      ensures NeededFirst(old(entries), order, k, incoming, maximumBytes)
      ensures OldestGone(old(entries), entries)
      ensures failed.None? ==> Total(entries) + incoming <= maximumBytes
      ensures failed.Some? ==> failed == Some(Io) || failed == Some(Metadata) || failed == Some(Limit)
      ensures (failed.None? || failed == Some(Limit)) && NoneClaimed(old(entries)) ==>
        (failed == Some(Limit) <==> Total(Pinned(old(entries))) + incoming > maximumBytes)
    {
      var readable: bool := *;
      if !readable { return Some(Metadata), [], 0; }
      var usage := Usage(entries);
      order := UnpinnedLru(entries);
      k := 0;
      assert order[..0] == [];
      hide IsLruOrder, Claimable;
      while k < |order| && usage + incoming > maximumBytes
        invariant EvictedFirst(old(entries), old(files), order, k) && usage == Total(entries)
        invariant NeededFirst(old(entries), order, k, incoming, maximumBytes)
        decreases |order| - k
      {
        failed, usage := EvictNext(order, k, usage, old(entries), old(files));
        if failed.Some? { return; }
        k := k + 1;
      }
      failed := if usage + incoming > maximumBytes then Some(Limit) else None;
      if NoneClaimed(old(entries)) { LimitIff(old(entries), order, k, incoming, maximumBytes); }
    }

    // -------------------------------------------------------------- restart

    ghost predicate CheckedFirst(m: Entries, fs: map<Digest, Bytes>, order: seq<Digest>, k: nat)
      reads this
    {
      && k <= |order| && IsLruOrder(m, order) && NoneClaimed(m)
      && entries == m - Unsound(sha, m, fs, order[..k]) && files == fs - Unsound(sha, m, fs, order[..k])
    }

    method CheckNext(order: seq<Digest>, k: nat, ghost m: Entries, ghost fs: map<Digest, Bytes>) returns (ok: bool)
      requires k < |order| && CheckedFirst(m, fs, order, k)
      modifies this`entries, this`files
      ensures ok ==> CheckedFirst(m, fs, order, k + 1)
    {
      var d := order[k];
      CheckOne(sha, m, fs, order, k);
      hide IsLruOrder, Unsound, NoneClaimed;
      var verified := VerifyFile(d, entries[d].length);
      if verified.Err? { return false; }
      ok := true;
      if !verified.value {
        var stored: bool := *;
        if !stored { return false; }
        ok := RemoveFile(d);
        if !ok { return; }
        entries := entries - {d};
      }
    }

    /** Drops every entry whose file is missing or corrupt, then makes the rest fit. */
    method Reconcile() returns (failed: Option<Failure>, ghost order: seq<Digest>, ghost k: nat)
      requires NoneClaimed(entries) && Pinned(entries) == map[]
      modifies this`entries, this`files
      ensures failed.None? ==> Restarted(old(entries), old(files), order, k)
    {
      var all := UnpinnedLru(entries);
      order, k := [], 0;
      assert all[..0] == [];
      for i := 0 to |all|
        invariant CheckedFirst(old(entries), old(files), all, i)
      {
        var ok := CheckNext(all, i, old(entries), old(files));
        if !ok { return Some(Io), [], 0; }
      }
      assert all[..|all|] == all;
      SoundOnlyLeft(sha, old(entries), old(files), all);
      hide IsLruOrder, Claimable, Unsound;
      failed, order, k := EvictFor(0);
    }

    /** What a successful restart leaves: the sound entries of `m`, least recently used
        ones evicted until the rest fits, none pinned, each with its verified file. */
    ghost predicate Restarted(m: Entries, fs: map<Digest, Bytes>, order: seq<Digest>, k: nat)
      reads this
    {
      && Valid() && NoneClaimed(entries) && Pinned(entries) == map[]
      && (forall d | d in entries :: Sound(sha, entries, files, d))
      && var sound := SoundOnly(sha, m, fs);
      && IsLruOrder(sound, order) && k <= |order|
      && entries == sound - Claimable(sound, order[..k])
      && NeededFirst(sound, order, k, 0, maximumBytes)
    }

    /** `open`, from whatever rows and files a crash left behind. */
    method Open() returns (failed: Option<Failure>, ghost order: seq<Digest>, ghost k: nat)
      modifies this`entries, this`files
      ensures maximumBytes == 0 || maximumResourceBytes == 0 ==> failed == Some(Limit)
      ensures failed.None? ==> Restarted(Reset(old(entries)), old(files), order, k)
      ensures failed.None? ==> forall d | d in entries ::
        d in old(entries) && entries[d] == old(entries)[d].(refs := 0, evicting := false)
    {
      order, k := [], 0;
      if maximumBytes == 0 || maximumResourceBytes == 0 { return Some(Limit), [], 0; }
      entries := Reset(entries);
      failed, order, k := Reconcile();
    }

    // -------------------------------------------------------------- resolution

    /** Holds from a successful `Open` on. */
    ghost predicate Valid()
      reads this
    {
      Total(entries) <= maximumBytes
    }

    /** `p` is the path of a published file with the descriptor's digest and length. */
    ghost predicate Published(descriptor: Descriptor, p: Digest)
      reads this
    {
      && descriptor.digest == Some(p) && p in files && Matches(sha, files[p], p, descriptor.length)
      && p in entries && entries[p].length == descriptor.length && entries[p].media == descriptor.media
    }

    method CachedVerified(descriptor: Descriptor, now: int) returns (r: Result<Option<Digest>>)
      requires Valid() && descriptor.digest.Some?
      modifies this`entries, this`files
      ensures Valid() && PinsKept(old(entries), entries) && PinnedFilesKept(old(entries), old(files), files)
      ensures r.Ok? ==> (r.value.Some? <==> old(Published(descriptor, descriptor.digest.value)))
      ensures r.Ok? && r.value.Some? ==> Published(descriptor, r.value.value)
      ensures r.Ok? && r.value.Some? ==>
        entries == old(entries)[r.value.value := old(entries)[r.value.value].(access := now)]
      ensures r == Ok(None) ==> entries == old(entries) - {descriptor.digest.value}
      ensures r.Err? ==> entries == old(entries) && r.error in {Io, Metadata, DigestMismatch}
      ensures r.Ok? && r.value.Some? ==> files == old(files)
      ensures r == Err(DigestMismatch) ==>
        descriptor.digest.value in Pinned(old(entries)) && !old(Published(descriptor, descriptor.digest.value))
    {
      var d := descriptor.digest.value;
      if d !in entries { return Ok(None); }
      var metadata := entries[d];
      if metadata.length == descriptor.length && metadata.media == descriptor.media {
        var verified := VerifyFile(d, descriptor.length);
        if verified.Err? { return Err(verified.error); }
        if verified.value {
          var stored: bool := *;
          if !stored { return Err(Metadata); }
          entries := entries[d := metadata.(access := now)];
          TotalByLength(old(entries), entries);
          return Ok(Some(d));
        }
      }
      if metadata.refs > 0 { return Err(DigestMismatch); }
      var _ := RemoveFile(d);
      var stored: bool := *;
      if !stored { return Err(Metadata); }
      entries := entries - {d};
      TotalMonotone(entries, old(entries));
      r := Ok(None);
    }

    /** Writes the bytes under their digest, by way of a temporary file and a rename. A
        failure after the rename leaves the new file behind. */
    method Publish(d: Digest, bytes: Bytes) returns (ok: bool)
      modifies this`files
      ensures files == old(files) || files == old(files)[d := bytes]
      ensures ok ==> files == old(files)[d := bytes]
    {
      ok := *;
      var renamed: bool := *;
      if ok || renamed { files := files[d := bytes]; }
    }

    method MakeRoom(incoming: nat) returns (failed: Option<Failure>)
      requires Valid()
      modifies this`entries, this`files
      ensures Valid() && PinsKept(old(entries), entries) && PinnedFilesKept(old(entries), old(files), files)
      ensures entries.Keys <= old(entries).Keys
      ensures failed.None? ==> Total(entries) + incoming <= maximumBytes
      ensures failed.Some? ==> failed == Some(Io) || failed == Some(Metadata) || failed == Some(Limit)
      ensures failed == Some(Limit) && NoneClaimed(old(entries)) ==>
        Total(Pinned(old(entries))) + incoming > maximumBytes
    {
      ghost var order, k;
      failed, order, k := EvictFor(incoming);
      if entries != old(entries) || files != old(files) {
        EvictionKeeps(old(entries), old(files), order, k);
        if failed == Some(Metadata) { StuckKeeps(old(entries), old(files), order, k, entries, files); }
        ghost var left := old(entries) - Claimable(old(entries), order[..k]);
        hide IsLruOrder, Claimable;
        TotalByLength(entries, left);
        TotalMonotone(left, old(entries));
      }
    }

    /** Reads at most one byte more than declared, checks what was read against the
        descriptor, makes room, publishes the bytes and only then records them. */
    method StoreAcquired(descriptor: Descriptor, acquired: Option<Bytes>, now: int) returns (r: Result<Digest>)
      requires Valid() && ValidDescriptor(descriptor, maximumResourceBytes) && descriptor.digest.value !in entries
      modifies this`entries, this`files
      ensures Valid() && PinsKept(old(entries), entries) && PinnedFilesKept(old(entries), old(files), files)
      ensures r.Ok? ==> Published(descriptor, r.value)
      ensures r.Ok? ==> acquired.Some? && files[r.value] == acquired.value
      ensures r.Ok? ==> entries[r.value] == Entry(descriptor.media, descriptor.length, now, 0, false)
      ensures r.Err? ==> descriptor.digest.value !in entries
      ensures r == Err(Acquisition) <==> acquired.None?
      ensures r == Err(DigestMismatch) ==> !Matches(sha, acquired.value, descriptor.digest.value, descriptor.length)
      ensures r == Err(Limit) && NoneClaimed(old(entries)) ==>
        Total(Pinned(old(entries))) + descriptor.length > maximumBytes
    {
      var d, length := descriptor.digest.value, descriptor.length;
      if acquired.None? { return Err(Acquisition); }
      var broken: bool := *;
      if broken { return Err(Io); }
      var limit := (if length < maximumResourceBytes then length else maximumResourceBytes) + 1;
      var bytes := if |acquired.value| > limit then acquired.value[..limit] else acquired.value;
      if !Matches(sha, bytes, d, length) { return Err(DigestMismatch); }
      var failed := MakeRoom(length);
      if failed.Some? { return Err(failed.value); }
      var ok := Publish(d, bytes);
      if !ok { return Err(Io); }
      var stored: bool := *;
      if !stored {
        var _ := RemoveFile(d);
        return Err(Metadata);
      }
      TotalInsert(entries, d, Entry(descriptor.media, length, now, 0, false));
      entries := entries[d := Entry(descriptor.media, length, now, 0, false)];
      r := Ok(d);
    }

    /** A caller alone in the cache always leads its own flight. */
    method Resolve(descriptor: Descriptor, acquired: Option<Bytes>, now: int) returns (r: Result<Digest>)
      requires Valid()
      modifies this`entries, this`files
      ensures Valid() && PinsKept(old(entries), entries) && PinnedFilesKept(old(entries), old(files), files)
      ensures r.Ok? ==> Published(descriptor, r.value)
      ensures r.Ok? && old(Published(descriptor, r.value)) ==> files == old(files) && entries.Keys == old(entries).Keys
      ensures r.Ok? && !old(Published(descriptor, r.value)) ==>
        acquired.Some? && files[r.value] == acquired.value
      ensures r == Err(InvalidDescriptor) <==>
        descriptor.digest.None? || descriptor.media == "" || descriptor.length > maximumResourceBytes
      ensures r == Err(InvalidDescriptor) ==> entries == old(entries) && files == old(files)
    {
      if !ValidDescriptor(descriptor, maximumResourceBytes) { return Err(InvalidDescriptor); }
      var cached := CachedVerified(descriptor, now);
      if cached.Err? { return Err(cached.error); }
      if cached.value.Some? { return Ok(cached.value.value); }
      var led := StoreAcquired(descriptor, acquired, now);
      r := if led.Ok? then led else Err(Acquisition);
    }

    method Pin(d: Digest) returns (ok: bool)
      requires Valid()
      modifies this`entries
      ensures Valid()
      ensures ok ==> d in old(entries) && !old(entries)[d].evicting
      ensures entries == if ok then old(entries)[d := old(entries)[d].(refs := old(entries)[d].refs + 1)]
        else old(entries)
    {
      var stored: bool := *;
      ok := stored && d in entries && !entries[d].evicting;
      if ok {
        entries := entries[d := entries[d].(refs := entries[d].refs + 1)];
        TotalByLength(old(entries), entries);
      }
    }

    method Unpin(d: Digest) returns (ok: bool)
      requires Valid()
      modifies this`entries
      ensures Valid()
      ensures ok ==> d in old(entries) && old(entries)[d].refs > 0
      ensures entries == if ok then old(entries)[d := old(entries)[d].(refs := old(entries)[d].refs - 1)]
        else old(entries)
    {
      var stored: bool := *;
      ok := stored && d in entries && entries[d].refs > 0;
      if ok {
        entries := entries[d := entries[d].(refs := entries[d].refs - 1)];
        TotalByLength(old(entries), entries);
      }
    }

    // -------------------------------------------------------------- documents

    /** Other processes rewrite or remove any file. */
    method Interfere()
      modifies this`files
    {
      files := *;
    }

    /** Resolves one image and checks the bytes it reads, whatever happened to the file
        since it was verified. */
    method ResolveImage(image: Image, now: int) returns (r: Result<Bytes>)
      requires Valid()
      modifies this`entries, this`files
      ensures Valid() && PinsKept(old(entries), entries)
      ensures r.Ok? ==> image.digest.Some? && Matches(sha, r.value, image.digest.value, image.length)
      ensures image.media != "image/jpeg" || !image.prefixed ==>
        r == Err(InvalidDescriptor) && entries == old(entries) && files == old(files)
      ensures r == Err(InvalidDescriptor) ==>
        || image.media != "image/jpeg" || !image.prefixed || image.digest.None?
        || image.length > maximumResourceBytes
    {
      if image.media != "image/jpeg" || !image.prefixed { return Err(InvalidDescriptor); }
      var acquired: Option<Bytes> := *;
      var path := Resolve(Descriptor(image.digest, image.media, image.length), acquired, now);
      if path.Err? { return Err(path.error); }
      Interfere();
      var read := ReadFile(path.value);
      if !read.Content? { return Err(Io); }
      if !Matches(sha, read.bytes, image.digest.value, image.length) { return Err(DigestMismatch); }
      r := Ok(read.bytes);
    }

    /** `resolve_document_images`; `packetOk` is the packet validator's answer. */
    method ResolveDocumentImages(images: map<string, Image>, packetOk: bool, now: int)
        returns (r: Result<map<string, Bytes>>)
      requires Valid()
      modifies this`entries, this`files
      ensures Valid()
      ensures r.Ok? ==> packetOk && AsDeclared(sha, images, r.value)
      ensures r.Ok? ==> AllJpeg(images)
      ensures !packetOk ==> r == Err(InvalidDescriptor)
    {
      if !packetOk { return Err(InvalidDescriptor); }
      var left := images;
      var resolved: map<string, Bytes> := map[];
      while left != map[]
        invariant Valid() && left.Keys <= images.Keys
        invariant AsDeclared(sha, images - left.Keys, resolved)
        invariant AllJpeg(images - left.Keys)
        decreases |left|
      {
        var id :| id in left;
        var bytes := ResolveImage(images[id], now);
        if bytes.Err? { return Err(bytes.error); }
        resolved := resolved[id := bytes.value];
        left := left - {id};
      }
      assert images - {} == images;
      r := Ok(resolved);
    }
  }
}
