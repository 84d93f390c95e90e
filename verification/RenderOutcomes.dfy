/** What becomes of a render whose attempt failed, and which renders are cleaned up. */
module RenderOutcomes {
  import opened RenderLeases
  import opened RenderRuns

  // ---------------------------------------------------------------- the attempt under way

  /** The task that holds a render's lease works on the render's newest attempt. */
  predicate NewestAttempt(c: Cell) {
    c.row.lease.Some? && c.row.lease.value in c.tasks && c.tasks[c.row.lease.value].Render? ==>
      c.tasks[c.row.lease.value].attempt == c.row.attempt
  }

  lemma StepKeepsNewest(c: Cell, s: Step)
    requires LeaseInv(c) && NewestAttempt(c) && Enabled(c, s)
    ensures NewestAttempt(Apply(c, s))
  {
  }

  lemma {:induction false} HolderIsNewest(acts: seq<Action>, id: RenderId)
    requires Legal(acts) && id in Run(acts)
    ensures NewestAttempt(Run(acts)[id])
  {
    var before, a := acts[..|acts| - 1], acts[|acts| - 1];
    if id in Run(before) {
      HolderIsNewest(before, id);
      RunKeepsInv(before, id);
      if a.At? && a.id == id { StepKeepsNewest(Run(before)[id], a.step); }
    }
  }

  // ---------------------------------------------------------------- why an attempt fails

  /** Causes that another attempt would meet again. */
  predicate IsFinal(a: Action, id: RenderId, t: Token) {
    a == At(id, RenderFailed(t, false)) || a == At(id, Oversized(t))
  }

  /** Causes that may pass. */
  predicate MayPass(a: Action, id: RenderId, t: Token) {
    a.At? && a.id == id && a.step.token == t &&
    (|| a.step == RenderFailed(t, true) || a.step.PutFailed? || a.step.EncryptionFailed?
     || (a.step.Complete? && !a.step.outcome.Committed?))
  }

  /** The task is on its way to report a failure of that kind, or has done so. */
  predicate Reporting(c: Cell, t: Token, retryable: bool) {
    || AtStage(c, t, Failing(retryable)) || AtStage(c, t, Ended)
    || (retryable && AtStage(c, t, Cleaning))
  }

  lemma StepReports(c: Cell, s: Step, t: Token, retryable: bool)
    requires Enabled(c, s)
    ensures Reporting(c, t, retryable) ==> Reporting(Apply(c, s), t, retryable)
    ensures !retryable && IsFinal(At("", s), "", t) ==> Reporting(Apply(c, s), t, false)
    ensures retryable && MayPass(At("", s), "", t) ==> Reporting(Apply(c, s), t, true)
  {
  }

  lemma {:induction false} CauseIsReported(acts: seq<Action>, i: nat, id: RenderId, t: Token, retryable: bool)
    requires Legal(acts) && i < |acts|
    requires if retryable then MayPass(acts[i], id, t) else IsFinal(acts[i], id, t)
    ensures id in Run(acts) && Reporting(Run(acts)[id], t, retryable)
    decreases |acts|
  {
    var before, a := acts[..|acts| - 1], acts[|acts| - 1];
    if i < |before| { CauseIsReported(before, i, id, t, retryable); }
    if a.At? && a.id == id {
      StepReports(Run(before)[id], a.step, t, retryable);
      hide Enabled, Apply, Reporting;
    }
  }

  // ---------------------------------------------------------------- final failures

  /** Nobody renders it any more. */
  predicate IsClosed(row: Row) {
    row.state == FailedTerminal || row.state == Expiring || row.state == Expired
  }

  lemma StepKeepsClosed(c: Cell, s: Step)
    requires LeaseInv(c) && IsClosed(c.row) && Enabled(c, s)
    ensures IsClosed(Apply(c, s).row) && !s.Claim?
  {
  }

  /** A failure that another attempt would meet again is final: once it is recorded, the
      render is never claimed again. */
  lemma {:induction false} FinalFailureIsFinal(acts: seq<Action>, i: nat, k: nat, id: RenderId, t: Token)
    requires Legal(acts) && i < k < |acts| && IsFinal(acts[i], id, t) && acts[k] == At(id, Fail(t, true))
    ensures id in Run(acts) && IsClosed(Run(acts)[id].row)
    ensures forall m, u | k < m < |acts| :: acts[m] != At(id, Claim(u))
    decreases |acts|
  {
    var before, a := acts[..|acts| - 1], acts[|acts| - 1];
    if k == |before| {
      CauseIsReported(before, i, id, t, false);
      assert Run(acts)[id].row.state == FailedTerminal;
    } else {
      FinalFailureIsFinal(before, i, k, id, t);
      RunKeepsInv(before, id);
      if a.At? && a.id == id { StepKeepsClosed(Run(before)[id], a.step); }
      hide Enabled, Apply;
    }
  }

  /** A failure that may pass puts the render back for another claim, until its attempts
      are used up. */
  lemma PassingFailureIsRetried(acts: seq<Action>, i: nat, id: RenderId, t: Token, u: Token)
    requires Legal(acts) && i < |acts| - 1 && MayPass(acts[i], id, t) && acts[|acts| - 1] == At(id, Fail(t, true))
    ensures id in Run(acts) && Run(acts)[id].row.lease.None?
    ensures var row := Run(acts)[id].row;
      row.state == if row.attempt < row.maxAttempts then Registered else FailedTerminal
    ensures u !in Run(acts)[id].tasks ==>
      (CanAct(Run(acts), At(id, Claim(u))) <==> Run(acts)[id].row.attempt < Run(acts)[id].row.maxAttempts)
  {
    var before := acts[..|acts| - 1];
    CauseIsReported(before, i, id, t, true);
    HolderIsNewest(before, id);
  }

  // ---------------------------------------------------------------- cleanup

  predicate IsCleanup(a: Action, id: RenderId) {
    a.At? && a.id == id && (a.step.ClaimExpired? || a.step.DeleteExpired? || a.step.ClearReference?)
  }

  predicate OnlyCleanup(more: seq<Action>, id: RenderId) {
    forall a | a in more :: IsCleanup(a, id)
  }

  /** Cleanup alone can expire the render and leave no artifact behind. */
  ghost predicate CleansUp(acts: seq<Action>, id: RenderId)
    requires Legal(acts) && id in Run(acts)
  {
    exists more ::
      && Legal(acts + more) && OnlyCleanup(more, id) && id in Run(acts + more)
      && Run(acts + more)[id].row.state == Expired
      && (Run(acts)[id].row.artifact.Some? ==> Run(acts)[id].row.artifact.value.key !in Run(acts + more)[id].objects)
  }

  /** A printable render that is not done. */
  predicate IsWanted(row: Row) {
    row.purpose == Printable && (row.state == Registered || row.state == Rendering)
  }

  /** Cleanup cannot touch it. */
  lemma WantedIsLeftAlone(c: Cell, a: Action, id: RenderId)
    requires CellInv(c) && IsWanted(c.row) && IsCleanup(a, id)
    ensures !Enabled(c, a.step)
  {
    assert CleanerInv(c);
  }

  lemma {:induction false} LegalPrefix(acts: seq<Action>, n: nat)
    requires Legal(acts) && n < |acts|
    ensures Legal(acts[..n]) && CanAct(Run(acts[..n]), acts[n])
  {
    if n < |acts| - 1 {
      LegalPrefix(acts[..|acts| - 1], n);
      assert acts[..|acts| - 1][..n] == acts[..n];
    }
  }

  lemma NoCleanupOfWanted(acts: seq<Action>, more: seq<Action>, id: RenderId)
    requires Legal(acts) && id in Run(acts) && IsWanted(Run(acts)[id].row)
    requires Legal(acts + more) && OnlyCleanup(more, id)
    ensures more == []
  {
    if more != [] {
      LegalPrefix(acts + more, |acts|);
      assert (acts + more)[..|acts|] == acts && (acts + more)[|acts|] == more[0] && more[0] in more;
      RunKeepsInv(acts, id);
      WantedIsLeftAlone(Run(acts)[id], more[0], id);
      assert false;
    }
  }

  /** The object of an expired render is gone and its reference is cleared. */
  lemma ExpiredHasNoArtifact(acts: seq<Action>, id: RenderId)
    requires Legal(acts) && id in Run(acts) && Run(acts)[id].row.state == Expired
    ensures Run(acts)[id].row.artifact.None?
  {
    RunKeepsInv(acts, id);
  }

  lemma CleanupCell(c: Cell, u: Token) returns (claimed: Cell, deleted: Cell, done: Cell)
    requires u !in c.tasks && !IsWanted(c.row) && c.row.state != Expired
    ensures Enabled(c, ClaimExpired(u)) && claimed == Apply(c, ClaimExpired(u))
    ensures Enabled(claimed, DeleteExpired(u, true)) && deleted == Apply(claimed, DeleteExpired(u, true))
    ensures Enabled(deleted, ClearReference(u, true)) && done == Apply(deleted, ClearReference(u, true))
    ensures done.row.state == Expired && (c.row.artifact.Some? ==> c.row.artifact.value.key !in done.objects)
  {
    claimed := Apply(c, ClaimExpired(u));
    deleted := Apply(claimed, DeleteExpired(u, true));
    done := Apply(deleted, ClearReference(u, true));
  }

  lemma CleanedUp(acts: seq<Action>, id: RenderId)
    requires Legal(acts) && id in Run(acts) && !IsWanted(Run(acts)[id].row) && Run(acts)[id].row.state != Expired
    ensures CleansUp(acts, id)
  {
    hide Legal, Run, Enabled, Apply;
    var u := FreshToken(Run(acts)[id].tasks.Keys);
    var claimed, deleted, done := CleanupCell(Run(acts)[id], u);
    var claim, delete := At(id, ClaimExpired(u)), At(id, DeleteExpired(u, true));
    var clear := At(id, ClearReference(u, true));
    Then(acts, claim);
    Then(acts + [claim], delete);
    Then(acts + [claim] + [delete], clear);
    var more := [claim, delete, clear];
    assert acts + more == acts + [claim] + [delete] + [clear];
    assert OnlyCleanup(more, id);
  }

  /** Cleanup reaches every render except a printable one that is not done. */
  lemma CleansUpIff(acts: seq<Action>, id: RenderId)
    requires Legal(acts) && id in Run(acts)
    ensures CleansUp(acts, id) <==> !IsWanted(Run(acts)[id].row)
  {
    if IsWanted(Run(acts)[id].row) {
      forall more | Legal(acts + more) && OnlyCleanup(more, id)
        ensures id in Run(acts + more) && Run(acts + more)[id].row.state != Expired
      {
        NoCleanupOfWanted(acts, more, id);
        assert acts + more == acts;
      }
    } else if Run(acts)[id].row.state == Expired {
      ExpiredHasNoArtifact(acts, id);
      assert acts + [] == acts;
    } else {
      CleanedUp(acts, id);
    }
  }
}
