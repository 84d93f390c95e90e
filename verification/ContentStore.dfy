/** The agent's content store: streams are written to a partial file, hashed on the way,
    and renamed to their digest only when everything checked out. */
module ContentStore {
  import opened Options
  import opened Bytes

  type Digest = nat

  datatype Name = Content(digest: Digest) | Partial(id: nat) | Confidential(id: nat)

  /** What a read of the input gives; an abort drops the whole put. */
  datatype Chunk = Data(bytes: Bytes) | ReadFailed | Aborted

  datatype Failure = TooLarge | DigestMismatch | Io
  datatype Stored = Stored(sha256: Digest, name: Name, bytes: nat)
  datatype Result = Ok(value: Stored) | Err(error: Failure)

  type Files = map<Name, Bytes>

  /** The bytes of a stream that is read to its end; an empty read ends it. */
  function Contents(input: seq<Chunk>): Option<Bytes> {
    if input == [] || input[0] == Data([]) then Some([])
    else if !input[0].Data? then None
    else
      var rest := Contents(input[1..]);
      if rest.None? then None else Some(input[0].bytes + rest.value)
  }

  /** Every file that is named by a digest has that digest. */
  predicate Sound(sha: Bytes -> Digest, files: Files) {
    forall name | name in files && name.Content? :: sha(files[name]) == name.digest
  }

  /** No partial file is there that was not there before. */
  predicate NoNewPartials(before: Files, after: Files) {
    forall name | name in after && name.Partial? :: name in before
  }

  class Store {
    const sha: Bytes -> Digest
    var files: Files

    /** Copies the input into the partial file until it ends, fails or grows too large. */
    method Copy(partial: Name, input: seq<Chunk>, limit: nat) returns (failed: Option<Failure>, hashed: Bytes)
      requires partial.Partial? && partial in files && files[partial] == []
      modifies this`files
      ensures partial in files && files == old(files)[partial := files[partial]]
      ensures failed.None? ==> Contents(input) == Some(hashed) && files[partial] == hashed && |hashed| <= limit
      ensures failed == Some(TooLarge) && Contents(input).Some? ==> |Contents(input).value| > limit
      ensures failed != Some(DigestMismatch)
    {
      var total, i := 0, 0;
      hashed := [];
      ResumesAtStart(input);
      while i < |input|
        invariant i <= |input| && files == old(files)[partial := hashed] && total == |hashed| <= limit
        invariant Contents(input) == Resumed(hashed, input[i..])
      {
        if !input[i].Data? { return Some(Io), hashed; }
        var chunk := input[i].bytes;
        if chunk == [] { break; }
        ResumesAfter(hashed, input[i..]);
        assert input[i..][1..] == input[i + 1..];
        hashed := hashed + chunk;
        var broken: bool := *;
        if broken { return Some(Io), hashed; }
        files := files[partial := files[partial] + chunk];
        total := total + |chunk|;
        if total > limit { return Some(TooLarge), hashed; }
        i := i + 1;
      }
      ResumesAtEnd(hashed, input[i..]);
      failed := None;
    }

    /** Removing the partial file can fail silently; then it leaks. */
    method Remove(partial: Name) returns (leaked: bool)
      modifies this`files
      ensures files == if leaked then old(files) else old(files) - {partial}
    {
      leaked := *;
      if !leaked { files := files - {partial}; }
    }

    /** `put_inner`. On the early exit the file is not read again: that its digest is the
        expected one is what every put before has left true. */
    method Put(expected: Option<Digest>, input: seq<Chunk>, confidential: bool, limit: nat, id: nat)
      returns (r: Result, leaked: bool)
      requires Sound(sha, files) && Partial(id) !in files && Confidential(id) !in files
      modifies this`files
      ensures Sound(sha, files) && (!leaked ==> NoNewPartials(old(files), files))
      ensures r.Err? && !leaked ==> files == old(files)
      ensures forall name | name in old(files) && (r.Err? || name != r.value.name) ::
        name in files && files[name] == old(files)[name]
      ensures r.Ok? ==> IsStored(expected, confidential, limit, r.value)
      ensures confidential ==> forall name | name in files && name.Content? :: name in old(files)
      ensures expected.Some? && Content(expected.value) in old(files) ==>
        files == old(files) && (r == Err(TooLarge) <==> |old(files)[Content(expected.value)]| > limit)
      ensures r == Err(TooLarge) && Contents(input).Some? ==>
        |Contents(input).value| > limit || (expected.Some? && Content(expected.value) in old(files))
      ensures r == Err(DigestMismatch) ==>
        expected.Some? && Contents(input).Some? && sha(Contents(input).value) != expected.value
      ensures r.Ok? && expected.Some? ==> |files[r.value.name]| == r.value.bytes
      ensures r.Ok? && r.value.name !in old(files) ==> Contents(input) == Some(files[r.value.name])
      ensures r.Ok? && !(expected.Some? && Content(expected.value) in old(files)) ==>
        Contents(input).Some? && r.value.sha256 == sha(Contents(input).value) &&
          r.value.bytes == |Contents(input).value|
      ensures r.Ok? ==>
        r.value.name ==
        if expected.Some? && Content(expected.value) in old(files) then Content(expected.value)
        else if confidential then Confidential(id) else Content(sha(Contents(input).value))
    {
      leaked := false;
      if expected.Some? && Content(expected.value) in files {
        var bytes := |files[Content(expected.value)]|;
        if bytes > limit { return Err(TooLarge), false; }
        return Ok(Stored(expected.value, Content(expected.value), bytes)), false;
      }
      var partial := Partial(id);
      var broken: bool := *;
      if broken { return Err(Io), false; }
      files := files[partial := []];
      var failed, hashed := Copy(partial, input, limit);
      if failed.Some? {
        leaked := Remove(partial);
        return Err(failed.value), leaked;
      }
      var actual := sha(hashed);
      if expected.Some? && actual != expected.value {
        leaked := Remove(partial);
        return Err(DigestMismatch), leaked;
      }
      var name := if confidential then Confidential(id) else Content(actual);
      var renamed: bool, alreadyExists: bool := *, *;
      if renamed {
        files := (files - {partial})[name := files[partial]];
      } else {
        leaked := Remove(partial);
        if !(alreadyExists && name in files) { return Err(Io), leaked; }
      }
      r := Ok(Stored(actual, name, |hashed|));
    }

    /** The result names a file of this store within the limit; a digest-named one has
        its digest, the expected one if there was one, and a confidential one its bytes. */
    ghost predicate IsStored(expected: Option<Digest>, confidential: bool, limit: nat, stored: Stored)
      reads this
    {
      && stored.name in files && stored.bytes <= limit
      && (expected.Some? ==> stored.sha256 == expected.value)
      && sha(files[stored.name]) == stored.sha256
      && (stored.name == Content(stored.sha256) || (confidential && stored.name.Confidential?))
    }
  }

  /** The contents once `done` is read and `rest` remains. */
  function Resumed(done: Bytes, rest: seq<Chunk>): Option<Bytes> {
    if Contents(rest).None? then None else Some(done + Contents(rest).value)
  }

  lemma ResumesAtStart(input: seq<Chunk>)
    ensures Contents(input) == Resumed([], input[0..])
  {
    assert input[0..] == input;
    assert Contents(input).Some? ==> [] + Contents(input).value == Contents(input).value;
  }

  lemma ResumesAfter(done: Bytes, rest: seq<Chunk>)
    requires rest != [] && rest[0].Data? && rest[0].bytes != []
    ensures Resumed(done, rest) == Resumed(done + rest[0].bytes, rest[1..])
  {
    var tail := Contents(rest[1..]);
    assert tail.Some? ==> done + (rest[0].bytes + tail.value) == done + rest[0].bytes + tail.value;
  }

  lemma ResumesAtEnd(done: Bytes, rest: seq<Chunk>)
    requires rest == [] || rest[0] == Data([])
    ensures Resumed(done, rest) == Some(done)
  {
    assert done + [] == done;
  }
}
