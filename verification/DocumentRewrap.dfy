/** Rewrapping a batch of stored ciphertexts under the active key while the application
    goes on changing them. */
module DocumentRewrap {
  import opened Options
  import opened Bytes
  import opened DocumentEnvelope

  type RowId = nat

  /** One stored ciphertext, with the context it was sealed for. */
  datatype Record = Record(row: RowId, aad: Bytes, bytes: Bytes)

  datatype Report = Report(scanned: nat, rewrapped: nat, concurrentChanges: nat, unreadable: nat)

  /** A replacement that the database accepted. */
  datatype Swap = Swap(record: Record, replacement: Bytes)

  function Unreadable(c: Cipher, box: SecretBox, records: seq<Record>): nat {
    if records == [] then 0
    else
      var n := |records| - 1;
      Unreadable(c, box, records[..n]) + if Decrypt(c, box, records[n].aad, records[n].bytes).Ok? then 0 else 1
  }

  predicate Harmless(c: Cipher, box: SecretBox, swaps: seq<Swap>) {
    forall s | s in swaps :: Rewraps(c, box, s.record.aad, s.record.bytes, s.replacement)
  }

  class DocumentRows {
    var rows: map<RowId, Bytes>
    ghost var swaps: seq<Swap>

    /** The application rewrites or removes any row. */
    method Others()
      modifies this`rows
    {
      rows := *;
    }

    /** Replaces a row only if it still holds what was read; a lease may also refuse. */
    method CompareAndSwap(record: Record, replacement: Bytes) returns (swapped: bool)
      modifies this
      ensures swapped ==> record.row in old(rows) && old(rows)[record.row] == record.bytes
      ensures rows == if swapped then old(rows)[record.row := replacement] else old(rows)
      ensures swaps == if swapped then old(swaps) + [Swap(record, replacement)] else old(swaps)
    {
      var leased: bool := *;
      swapped := !leased && record.row in rows && rows[record.row] == record.bytes;
      if swapped {
        rows := rows[record.row := replacement];
        swaps := swaps + [Swap(record, replacement)];
      }
    }

    method DrawNonce() returns (nonce: Bytes)
      ensures |nonce| == NONCE_BYTES
    {
      nonce := *;
      if |nonce| != NONCE_BYTES { nonce := seq(NONCE_BYTES, _ => 0 as byte); }
    }

    /** `rewrap_postgres_batch`; `records` is what the database returned. */
    method RewrapBatch(c: Cipher, box: SecretBox, oldKeyId: KeyId, records: seq<Record>, dryRun: bool)
      returns (r: Option<Report>)
      requires Lawful(c) && ValidBox(box)
      modifies this
      ensures oldKeyId == box.active ==> r.None? && swaps == old(swaps)
      ensures old(swaps) <= swaps && Harmless(c, box, swaps[|old(swaps)|..])
      ensures r.Some? ==> r.value.scanned == |records| && |swaps| == |old(swaps)| + r.value.rewrapped
      ensures dryRun ==> rows == old(rows) && swaps == old(swaps)
      ensures r.Some? && dryRun ==> r.value == Report(|records|, 0, 0, 0)
      ensures r.Some? && !dryRun ==>
        && r.value.scanned == r.value.rewrapped + r.value.concurrentChanges + r.value.unreadable
        && r.value.unreadable == Unreadable(c, box, records)
    {
      if oldKeyId == box.active { return None; }
      var rewrapped, concurrentChanges, unreadable := 0, 0, 0;
      if !dryRun {
        for i := 0 to |records|
          invariant old(swaps) <= swaps && Harmless(c, box, swaps[|old(swaps)|..])
          invariant |swaps| == |old(swaps)| + rewrapped
          invariant i == rewrapped + concurrentChanges + unreadable
          invariant unreadable == Unreadable(c, box, records[..i])
        {
          assert records[..i + 1][..i] == records[..i];
          var nonce := DrawNonce();
          var replacement := RewrapPayload(c, box, nonce, records[i].aad, records[i].bytes);
          if replacement.None? {
            unreadable := unreadable + 1;
            continue;
          }
          Others();
          var failed: bool := *;
          if failed { return None; }
          var swapped := CompareAndSwap(records[i], replacement.value);
          if swapped { rewrapped := rewrapped + 1; } else { concurrentChanges := concurrentChanges + 1; }
        }
        assert records[..|records|] == records;
      }
      r := Some(Report(|records|, rewrapped, concurrentChanges, unreadable));
    }
  }
}
