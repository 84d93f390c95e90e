/** One worker's code over the shared rows and objects. Before each of its own steps any
    number of steps of other workers may happen; each of its steps is atomic. */
module RenderWorker {
  import opened Options
  import opened RenderLeases
  import opened RenderRuns
  import opened RenderOutcomes

  class Worker {
    var world: World
    ghost var acts: seq<Action>

    ghost predicate Valid()
      reads this
    {
      Legal(acts) && world == Run(acts)
    }

    ghost predicate Owns(id: RenderId, t: Token)
      reads this
    {
      id in world && t in world[id].tasks
    }

    method Do(a: Action)
      requires Valid() && CanAct(world, a)
      modifies this
      ensures Valid() && world == Act(old(world), a) && acts == old(acts) + [a]
    {
      Then(acts, a);
      world := Act(world, a);
      acts := acts + [a];
    }

    /** Other workers act; a task they do not hold stays as it is. */
    method Others(id: RenderId, t: Token)
      requires Valid() && Owns(id, t)
      modifies this
      ensures Valid() && Owns(id, t) && world[id].tasks[t] == old(world[id].tasks[t])
      ensures old(acts) <= acts
    {
      var steps: int := *;
      while steps > 0
        invariant Valid() && Owns(id, t) && world[id].tasks[t] == old(world[id].tasks[t])
        invariant old(acts) <= acts
      {
        steps := steps - 1;
        var a: Action := *;
        if CanAct(world, a) && !ActsFor(a, id, t) {
          if a.At? && a.id == id { OtherTasksKept(world[id], a.step, t); }
          hide Enabled, Apply, Legal, Run;
          Do(a);
        }
      }
    }

    /** One step of this worker, after whatever the others did. */
    method Take(id: RenderId, step: Step)
      requires Valid() && CanAct(world, At(id, step))
      modifies this
      ensures Valid() && id in world && old(world)[id] == old(world[id])
      ensures world[id] == Apply(old(world[id]), step)
      ensures acts == old(acts) + [At(id, step)]
    {
      hide Enabled, Apply, Legal, Run;
      Do(At(id, step));
    }

    /** Renders, stores the artifact under the lease's own key and completes the row.
        `None` is success; a failure says whether it may be retried. */
    method RenderAndComplete(id: RenderId, t: Token) returns (failed: Option<bool>)
      requires Valid() && Owns(id, t) && AtStage(world[id], t, Working)
      modifies this
      ensures Valid() && Owns(id, t) && old(acts) <= acts
      ensures failed.None? ==> AtStage(world[id], t, Finished) && At(id, Complete(t, Committed)) in acts
      ensures failed.Some? ==> AtStage(world[id], t, Failing(failed.value))
    {
      hide Legal, Run;
      var rendered: bool := *;
      if !rendered {
        var retryable: bool := *;
        Others(id, t);
        Take(id, RenderFailed(t, retryable));
        return Some(retryable);
      }
      var stored: bool, sha: Sha, landed: bool := *, *, *;
      Others(id, t);
      if !stored {
        Take(id, PutFailed(t, if landed then Some(sha) else None));
        return Some(true);
      }
      Take(id, Put(t, sha));
      failed := CompleteStored(id, t);
    }

    /** Encrypts the object's key and completes the row, or gives the object up. */
    method CompleteStored(id: RenderId, t: Token) returns (failed: Option<bool>)
      requires Valid() && Owns(id, t) && IsStored(world[id], t)
      modifies this
      ensures Valid() && Owns(id, t) && old(acts) <= acts
      ensures failed.None? ==> AtStage(world[id], t, Finished) && At(id, Complete(t, Committed)) in acts
      ensures failed.Some? ==> AtStage(world[id], t, Failing(failed.value))
    {
      hide Legal, Run;
      var encrypted: bool, fits: bool, reached: bool, answered: bool := *, *, *, *;
      Others(id, t);
      if !encrypted {
        Take(id, EncryptionFailed(t));
        DeleteArtifact(id, t);
        return Some(true);
      }
      if !fits {
        Take(id, Oversized(t));
        return Some(false);
      }
      var current := world[id].row.state.Rendering? && world[id].row.lease == Some(t);
      Take(id, Complete(t, if !current || !reached then Refused else if answered then Committed else ReplyLost));
      if current && reached && answered { return None; }
      DeleteArtifact(id, t);
      failed := Some(true);
    }

    method DeleteArtifact(id: RenderId, t: Token)
      requires Valid() && Owns(id, t) && AtStage(world[id], t, Cleaning)
      modifies this
      ensures Valid() && Owns(id, t) && AtStage(world[id], t, Failing(true)) && old(acts) <= acts
    {
      hide Legal, Run;
      var deleted: bool := *;
      Others(id, t);
      Take(id, DeleteOwn(t, deleted));
    }

    /** `process`: whatever fails is recorded under the current lease, or not at all. A
        recorded failure ends the render when it is not retryable or the attempt was the
        last, and otherwise puts it back. */
    method Process(id: RenderId, t: Token) returns (completed: bool, recorded: bool, retryable: bool)
      requires Valid() && Owns(id, t) && AtStage(world[id], t, Working)
      modifies this
      ensures Valid() && Owns(id, t) && old(acts) <= acts
      ensures completed ==> AtStage(world[id], t, Finished) && At(id, Complete(t, Committed)) in acts
      ensures !completed ==> AtStage(world[id], t, Ended) && acts[|acts| - 1] == At(id, Fail(t, recorded))
      ensures !completed && recorded ==>
        Legal(acts[..|acts| - 1]) && id in Run(acts[..|acts| - 1]) && Run(acts[..|acts| - 1])[id].row.lease == Some(t)
      ensures !completed && recorded ==>
        var row := Run(acts[..|acts| - 1])[id].row;
        world[id].row == row.(lease := None, state :=
          if !retryable || row.attempt >= row.maxAttempts then FailedTerminal else Registered)
    {
      hide Run, Legal;
      var failed := RenderAndComplete(id, t);
      completed, recorded, retryable := failed.None?, false, false;
      if failed.Some? {
        retryable := failed.value;
        var reached: bool := *;
        Others(id, t);
        recorded := reached && world[id].row.lease == Some(t);
        HolderIsNewest(acts, id);
        ghost var before := acts;
        Take(id, Fail(t, recorded));
        assert acts[..|acts| - 1] == before;
        if recorded { FailureUnderLease(acts, |acts| - 1, id, t); }
      }
    }

    /** `cleanup_item`: deletes the object first and clears the reference after. */
    method CleanupItem(id: RenderId, t: Token) returns (done: bool)
      requires Valid() && Owns(id, t) && IsExpiring(world[id], t, false)
      modifies this
      ensures Valid() && Owns(id, t)
      ensures done ==> At(id, ClearReference(t, true)) in acts && world[id].row.state.Expired?
      ensures done ==> world[id].row.artifact.None?
    {
      hide Legal, Run;
      var deleted: bool := *;
      Others(id, t);
      Take(id, DeleteExpired(t, deleted));
      if !IsExpiring(world[id], t, true) { return false; }
      var reached: bool := *;
      Others(id, t);
      done := reached && world[id].row.state.Expiring? && world[id].row.lease == Some(t);
      Take(id, ClearReference(t, done));
    }
  }

  lemma OtherTasksKept(c: Cell, s: Step, t: Token)
    requires Enabled(c, s) && s.token != t && t in c.tasks
    ensures t in Apply(c, s).tasks && Apply(c, s).tasks[t] == c.tasks[t]
  {
  }
}
