/** Runs of many workers over many renders, and what holds after every one of them. */
module RenderRuns {
  import opened Options
  import opened RenderLeases

  type World = map<RenderId, Cell>

  datatype Action =
    | Register(id: RenderId, purpose: Purpose, maxAttempts: nat)
    | At(id: RenderId, step: Step)

  predicate CanAct(w: World, a: Action) {
    match a
    case Register(id, _, _) => id !in w
    case At(id, step) => id in w && Enabled(w[id], step)
  }

  function Act(w: World, a: Action): World
    requires CanAct(w, a)
  {
    match a
    case Register(id, purpose, maxAttempts) =>
      w[id := Cell(Row(purpose, Registered, 0, maxAttempts, None, None), map[], map[], 0)]
    case At(id, step) => w[id := Apply(w[id], step)]
  }

  /** Every action was possible when it happened. */
  predicate Legal(acts: seq<Action>)
    decreases |acts|, 0
  {
    acts == [] || (Legal(acts[..|acts| - 1]) && CanAct(Run(acts[..|acts| - 1]), acts[|acts| - 1]))
  }

  function Run(acts: seq<Action>): World
    requires Legal(acts)
    decreases |acts|, 1
  {
    if acts == [] then map[] else Act(Run(acts[..|acts| - 1]), acts[|acts| - 1])
  }

  lemma Then(acts: seq<Action>, a: Action)
    requires Legal(acts) && CanAct(Run(acts), a)
    ensures Legal(acts + [a]) && Run(acts + [a]) == Act(Run(acts), a)
  {
    assert (acts + [a])[..|acts|] == acts;
  }

  lemma {:induction false} RunKeepsInv(acts: seq<Action>, id: RenderId)
    requires Legal(acts) && id in Run(acts)
    ensures CellInv(Run(acts)[id])
  {
    var before, a := acts[..|acts| - 1], acts[|acts| - 1];
    if id in Run(before) {
      RunKeepsInv(before, id);
      if a.At? && a.id == id {
        StepKeepsInv(Run(before)[id], a.step);
      }
    }
  }

  lemma StepKeepsInv(c: Cell, s: Step)
    requires CellInv(c) && Enabled(c, s)
    ensures CellInv(Apply(c, s))
  {
    StepKeepsLease(c, s);
    StepKeepsCompletion(c, s);
    StepKeepsAuthor(c, s);
    StepKeepsObjects(c, s);
    StepKeepsCleaners(c, s);
    hide LeaseInv, CompletionInv, AuthorInv, ObjectInv, CleanerInv, Enabled, Apply;
  }

  // ---------------------------------------------------------------- one completion

  predicate IsCommit(a: Action, id: RenderId) {
    a.At? && a.id == id && a.step.Complete? && !a.step.outcome.Refused?
  }

  function Commits(acts: seq<Action>, id: RenderId): nat {
    if acts == [] then 0
    else Commits(acts[..|acts| - 1], id) + if IsCommit(acts[|acts| - 1], id) then 1 else 0
  }

  lemma {:induction false} CommitsCounted(acts: seq<Action>, id: RenderId)
    requires Legal(acts)
    ensures Commits(acts, id) == if id in Run(acts) then Run(acts)[id].completions else 0
  {
    if acts != [] {
      CommitsCounted(acts[..|acts| - 1], id);
    }
  }

  /** No render is ever completed twice, whoever claims, stalls or retries it. */
  lemma CompletedAtMostOnce(acts: seq<Action>, id: RenderId)
    requires Legal(acts)
    ensures Commits(acts, id) <= 1
  {
    CommitsCounted(acts, id);
    if id in Run(acts) {
      RunKeepsInv(acts, id);
    }
  }

  // ---------------------------------------------------------------- the artifact of a completed render

  predicate HasArtifact(c: Cell) {
    c.row.artifact.Some? && c.row.artifact.value.key in c.objects
    && c.objects[c.row.artifact.value.key] == c.row.artifact.value.sha
  }

  /** A referenced artifact whose author does not know it finished had its reply lost. */
  lemma {:induction false} AuthorFinished(acts: seq<Action>, id: RenderId)
    requires Legal(acts) && id in Run(acts) && Run(acts)[id].row.artifact.Some?
    ensures var t := Run(acts)[id].row.artifact.value.key;
      AtStage(Run(acts)[id], t, Finished) || At(id, Complete(t, ReplyLost)) in acts
  {
    var before, a := acts[..|acts| - 1], acts[|acts| - 1];
    assert acts == before + [a];
    if id in Run(before) && Run(before)[id].row.artifact.Some? {
      AuthorFinished(before, id);
      RunKeepsInv(before, id);
      if a.At? && a.id == id {
        SameAuthor(Run(before)[id], a.step);
      }
    } else {
      assert a.At? && a.id == id;
      NewAuthor(Run(before)[id], a.step);
    }
  }

  lemma SameAuthor(c: Cell, s: Step)
    requires CellInv(c) && Enabled(c, s) && c.row.artifact.Some? && Apply(c, s).row.artifact.Some?
    ensures Apply(c, s).row.artifact == c.row.artifact
    ensures AtStage(c, c.row.artifact.value.key, Finished) ==> AtStage(Apply(c, s), c.row.artifact.value.key, Finished)
  {
  }

  lemma NewAuthor(c: Cell, s: Step)
    requires Enabled(c, s) && c.row.artifact.None? && Apply(c, s).row.artifact.Some?
    ensures s.Complete? && s.token == Apply(c, s).row.artifact.value.key && !s.outcome.Refused?
    ensures s.outcome.Committed? ==> AtStage(Apply(c, s), s.token, Finished)
  {
  }

  /** A completed render keeps its object, with the recorded digest, unless the reply
      to its completion was lost. */
  lemma CompletedRenderKeepsArtifact(acts: seq<Action>, id: RenderId)
    requires Legal(acts) && id in Run(acts) && Run(acts)[id].row.state.Completed?
    ensures Run(acts)[id].row.artifact.Some?
    ensures HasArtifact(Run(acts)[id]) || At(id, Complete(Run(acts)[id].row.artifact.value.key, ReplyLost)) in acts
  {
    RunKeepsInv(acts, id);
    AuthorFinished(acts, id);
  }

  /** A worker that deleted its object is on its way to report a failure, or done. */
  predicate IsPastDeleting(c: Cell, t: Token) {
    t in c.tasks && c.tasks[t].Render? && (c.tasks[t].stage.Failing? || c.tasks[t].stage.Ended?)
  }

  lemma StepPastDeleting(c: Cell, s: Step, t: Token)
    requires Enabled(c, s)
    ensures IsPastDeleting(c, t) || s == DeleteOwn(t, true) ==> IsPastDeleting(Apply(c, s), t)
  {
  }

  lemma {:induction false} DeletedIsPast(acts: seq<Action>, id: RenderId, t: Token)
    requires Legal(acts) && At(id, DeleteOwn(t, true)) in acts
    ensures id in Run(acts) && IsPastDeleting(Run(acts)[id], t)
  {
    var before, a := acts[..|acts| - 1], acts[|acts| - 1];
    assert acts == before + [a];
    hide Enabled, Apply, IsPastDeleting;
    if At(id, DeleteOwn(t, true)) in before { DeletedIsPast(before, id, t); }
    if a.At? && a.id == id { StepPastDeleting(Run(before)[id], a.step, t); }
  }

  /** One step of a completed render: its object goes exactly when its author deletes it. */
  lemma StepKeepsArtifact(c: Cell, s: Step)
    requires CellInv(c) && Enabled(c, s) && Apply(c, s).row.state.Completed?
    ensures c.row.state.Completed? ==> Apply(c, s).row.artifact == c.row.artifact
    ensures c.row.state.Completed? ==>
      (HasArtifact(Apply(c, s)) <==> HasArtifact(c) && s != DeleteOwn(c.row.artifact.value.key, true))
    ensures !c.row.state.Completed? ==> s.Complete? && HasArtifact(Apply(c, s))
    ensures !c.row.state.Completed? ==> Apply(c, s).row.artifact.value.key == s.token && !IsPastDeleting(c, s.token)
  {
  }

  /** Exactly: while a render is completed its artifact is there if and only if its author
      did not delete it. */
  lemma {:induction false} ArtifactThereIffNotDeleted(acts: seq<Action>, id: RenderId)
    requires Legal(acts) && id in Run(acts) && Run(acts)[id].row.state.Completed?
    ensures Run(acts)[id].row.artifact.Some?
    ensures HasArtifact(Run(acts)[id]) <==> At(id, DeleteOwn(Run(acts)[id].row.artifact.value.key, true)) !in acts
  {
    var before, a := acts[..|acts| - 1], acts[|acts| - 1];
    assert acts == before + [a];
    RunKeepsInv(acts, id);
    assert CompletionInv(Run(acts)[id]);
    hide Enabled, Apply, HasArtifact, IsPastDeleting, CellInv;
    if a.At? && a.id == id {
      RunKeepsInv(before, id);
      StepKeepsArtifact(Run(before)[id], a.step);
      if Run(before)[id].row.state.Completed? {
        ArtifactThereIffNotDeleted(before, id);
      } else if At(id, DeleteOwn(a.step.token, true)) in before {
        DeletedIsPast(before, id, a.step.token);
      }
    } else {
      ArtifactThereIffNotDeleted(before, id);
    }
  }

  /** And when the reply is lost, the worker's own clean-up deletes the live artifact. */
  lemma LostReplyDeletesArtifact(acts: seq<Action>, id: RenderId, t: Token)
    requires Legal(acts) && CanAct(Run(acts), At(id, Complete(t, ReplyLost)))
    ensures var lost := acts + [At(id, Complete(t, ReplyLost)), At(id, DeleteOwn(t, true))];
      Legal(lost) && Run(lost)[id].row.state.Completed? && !HasArtifact(Run(lost)[id])
  {
    var first, second := At(id, Complete(t, ReplyLost)), At(id, DeleteOwn(t, true));
    Then(acts, first);
    Then(acts + [first], second);
    assert acts + [first, second] == acts + [first] + [second];
  }

  /** A render claimed once, with its artifact stored. */
  lemma StoredOnce() returns (acts: seq<Action>)
    ensures Legal(acts) && CanAct(Run(acts), At("r", Complete(0, ReplyLost)))
  {
    acts := ClaimedOnce();
    Then(acts, At("r", Put(0, 7)));
    acts := acts + [At("r", Put(0, 7))];
  }

  /** Such a lost reply is possible: a completed render without its artifact. */
  lemma CompletedWithoutArtifact() returns (acts: seq<Action>)
    ensures Legal(acts) && "r" in Run(acts) && Run(acts)["r"].row.state.Completed? && !HasArtifact(Run(acts)["r"])
  {
    acts := StoredOnce();
    LostReplyDeletesArtifact(acts, "r", 0);
    acts := acts + [At("r", Complete(0, ReplyLost)), At("r", DeleteOwn(0, true))];
  }

  lemma ClaimedOnce() returns (acts: seq<Action>)
    ensures Legal(acts) && "r" in Run(acts)
    ensures Run(acts)["r"] ==
      Cell(Row(Printable, Rendering, 1, 1, Some(0), None), map[], map[0 := Render(1, Working)], 0)
  {
    Then([], Register("r", Printable, 1));
    acts := [] + [Register("r", Printable, 1)];
    Then(acts, At("r", Claim(0)));
    acts := acts + [At("r", Claim(0))];
  }

  // ---------------------------------------------------------------- cleanup

  /** Cleanup clears a reference only after the object it names is gone. */
  lemma ReferenceOutlivesObject(acts: seq<Action>, id: RenderId, t: Token)
    requires Legal(acts) && CanAct(Run(acts), At(id, ClearReference(t, true)))
    ensures Run(acts)[id].row.artifact.Some? ==> Run(acts)[id].row.artifact.value.key !in Run(acts)[id].objects
  {
    RunKeepsInv(acts, id);
    assert CleanerKnows(Run(acts)[id], t);
  }

  // ---------------------------------------------------------------- a crashed last attempt

  predicate ActsFor(a: Action, id: RenderId, t: Token) {
    a.At? && a.id == id && a.step.token == t
  }

  /** The last permitted attempt of a printable render is under way under lease `t`. */
  predicate LastAttempt(c: Cell, t: Token) {
    && c.row.purpose.Printable? && c.row.state.Rendering? && c.row.lease == Some(t)
    && c.row.attempt >= c.row.maxAttempts
  }

  lemma OnlyHolderMoves(c: Cell, s: Step, t: Token)
    requires LastAttempt(c, t) && Enabled(c, s) && s.token != t
    ensures Apply(c, s).row == c.row
  {
  }

  /** Nobody but the holder of its lease can move such a render: if that worker is gone,
      the render stays `rendering` for good. */
  lemma {:induction false} LastAttemptIsNeverTakenOver(acts: seq<Action>, more: seq<Action>, id: RenderId, t: Token)
    requires Legal(acts) && Legal(acts + more) && id in Run(acts) && LastAttempt(Run(acts)[id], t)
    requires WithoutHolder(more, id, t)
    ensures id in Run(acts + more) && Run(acts + more)[id].row == Run(acts)[id].row
  {
    if more == [] {
      assert acts + more == acts;
    } else {
      var shorter := more[..|more| - 1];
      assert (acts + more)[..|acts + more| - 1] == acts + shorter;
      LastAttemptIsNeverTakenOver(acts, shorter, id, t);
      var a := more[|more| - 1];
      assert (acts + more)[|acts + more| - 1] == a && a in more;
      if a.At? && a.id == id {
        OnlyHolderMoves(Run(acts + shorter)[id], a.step, t);
      }
    }
  }

  predicate WithoutHolder(more: seq<Action>, id: RenderId, t: Token) {
    forall a | a in more :: !ActsFor(a, id, t)
  }

  /** Without the holder of its lease, nothing ever moves the render. */
  ghost predicate StuckWithout(acts: seq<Action>, id: RenderId, t: Token)
    requires Legal(acts) && id in Run(acts)
  {
    forall more | Legal(acts + more) && WithoutHolder(more, id, t) ::
      id in Run(acts + more) && Run(acts + more)[id].row == Run(acts)[id].row
  }

  /** The step with which somebody takes over. */
  function TakeOver(row: Row, other: Token): Step {
    if Claimable(row) then Claim(other) else ClaimExpired(other)
  }

  /** A render under lease `t` is stuck without its holder if and only if it is the last
      permitted attempt of a printable render. */
  lemma StuckIffLastAttempt(acts: seq<Action>, id: RenderId, t: Token)
    requires Legal(acts) && id in Run(acts) && Run(acts)[id].row.state.Rendering? && Run(acts)[id].row.lease == Some(t)
    ensures StuckWithout(acts, id, t) <==> LastAttempt(Run(acts)[id], t)
  {
    var c := Run(acts)[id];
    if LastAttempt(c, t) {
      forall more | Legal(acts + more) && WithoutHolder(more, id, t)
        ensures id in Run(acts + more) && Run(acts + more)[id].row == c.row
      {
        LastAttemptIsNeverTakenOver(acts, more, id, t);
      }
    } else {
      var other := FreshToken(c.tasks.Keys + {t});
      var more := [At(id, TakeOver(c.row, other))];
      Then(acts, more[0]);
      assert WithoutHolder(more, id, t);
      assert Run(acts + more)[id].row.lease == Some(other);
    }
  }

  lemma {:induction false} FreshToken(used: set<Token>) returns (t: Token)
    ensures forall u | u in used :: u < t
  {
    t := 0;
    if used != {} {
      var u :| u in used;
      var rest := FreshToken(used - {u});
      assert forall v | v in used :: v == u || v in used - {u};
      t := if u < rest then rest else u + 1;
    }
  }

  /** The state is reached by the first claim of a render that may be tried once. */
  lemma LastAttemptReached() returns (acts: seq<Action>)
    ensures Legal(acts) && "r" in Run(acts) && LastAttempt(Run(acts)["r"], 0)
  {
    acts := ClaimedOnce();
  }

  /** A failure is recorded only by the task that holds the lease when it is recorded. */
  lemma {:induction false} FailureUnderLease(acts: seq<Action>, i: nat, id: RenderId, t: Token)
    requires Legal(acts) && i < |acts| && acts[i] == At(id, Fail(t, true))
    ensures Legal(acts[..i]) && id in Run(acts[..i]) && Run(acts[..i])[id].row.lease == Some(t)
    decreases |acts|
  {
    if i < |acts| - 1 {
      FailureUnderLease(acts[..|acts| - 1], i, id, t);
      assert acts[..|acts| - 1][..i] == acts[..i];
    }
  }
}
