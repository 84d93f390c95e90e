/** Document renders: rows claimed by many workers under expiring leases, artifacts in
    an object store, and the cleanup of expired artifacts. Time is abstract: any lease
    may have expired whenever somebody tries to claim the row. */
module RenderLeases {
  import opened Options

  /** Every claim draws a token that was never used before. */
  type Token = nat
  type Sha = nat
  type RenderId = string

  datatype Purpose = Preview | Printable
  datatype RenderState = Registered | Rendering | Completed | FailedTerminal | Expiring | Expired

  /** An object key names the render and, through a digest, the lease token of the
      worker that wrote it; within one render the token is the key. */
  datatype Artifact = Artifact(key: Token, sha: Sha)

  datatype Row = Row(purpose: Purpose, state: RenderState, attempt: nat, maxAttempts: nat,
                     lease: Option<Token>, artifact: Option<Artifact>)

  /** Where a worker stands. `Finished` is a completion it knows of. */
  datatype Stage = Working | Stored(sha: Sha) | Finished | Cleaning | Failing(retryable: bool) | Ended

  datatype Task =
    | Render(attempt: nat, stage: Stage)
    | Expiry(key: Option<Token>, deleted: bool, ended: bool)

  /** One render: its row, its objects, everybody who ever claimed it, and how often a
      completion was committed. */
  datatype Cell = Cell(row: Row, objects: map<Token, Sha>, tasks: map<Token, Task>, completions: nat)

  /** `ReplyLost`: the completion is committed but the worker is told of an error. */
  datatype Outcome = Committed | ReplyLost | Refused

  datatype Step =
    | Claim(token: Token)
    | RenderFailed(token: Token, retryable: bool)
    | Put(token: Token, sha: Sha)
    | PutFailed(token: Token, landed: Option<Sha>)
    | EncryptionFailed(token: Token)
    | Oversized(token: Token)
    | Complete(token: Token, outcome: Outcome)
    | DeleteOwn(token: Token, ok: bool)
    | Fail(token: Token, applied: bool)
    | ClaimExpired(token: Token)
    | DeleteExpired(token: Token, ok: bool)
    | ClearReference(token: Token, applied: bool)

  // ---------------------------------------------------------------- steps

  predicate Claimable(row: Row) {
    (row.state.Registered? || row.state.Rendering?) && row.attempt < row.maxAttempts
  }

  predicate Expirable(row: Row) {
    || row.state.Completed? || row.state.FailedTerminal? || row.state.Expiring?
    || (row.purpose.Preview? && (row.state.Registered? || row.state.Rendering?))
  }

  predicate AtStage(c: Cell, t: Token, stage: Stage) {
    t in c.tasks && c.tasks[t].Render? && c.tasks[t].stage == stage
  }

  predicate IsStored(c: Cell, t: Token) {
    t in c.tasks && c.tasks[t].Render? && c.tasks[t].stage.Stored?
  }

  predicate IsFailing(c: Cell, t: Token) {
    t in c.tasks && c.tasks[t].Render? && c.tasks[t].stage.Failing?
  }

  predicate IsExpiring(c: Cell, t: Token, deleted: bool) {
    t in c.tasks && c.tasks[t].Expiry? && !c.tasks[t].ended && c.tasks[t].deleted == deleted
  }

  predicate Enabled(c: Cell, s: Step) {
    match s
    case Claim(t) => t !in c.tasks && Claimable(c.row)
    case RenderFailed(t, _) => AtStage(c, t, Working)
    case Put(t, _) => AtStage(c, t, Working)
    case PutFailed(t, _) => AtStage(c, t, Working)
    case EncryptionFailed(t) => IsStored(c, t)
    case Oversized(t) => IsStored(c, t)
    case Complete(t, outcome) =>
      IsStored(c, t) && (outcome.Refused? || (c.row.state.Rendering? && c.row.lease == Some(t)))
    case DeleteOwn(t, _) => AtStage(c, t, Cleaning)
    case Fail(t, applied) => IsFailing(c, t) && (applied ==> c.row.lease == Some(t))
    case ClaimExpired(t) => t !in c.tasks && Expirable(c.row)
    case DeleteExpired(t, _) => IsExpiring(c, t, false)
    case ClearReference(t, applied) =>
      IsExpiring(c, t, true) && (applied ==> c.row.state.Expiring? && c.row.lease == Some(t))
  }

  function ToStage(c: Cell, t: Token, stage: Stage): Cell
    requires t in c.tasks && c.tasks[t].Render?
  {
    c.(tasks := c.tasks[t := c.tasks[t].(stage := stage)])
  }

  function Commit(c: Cell, t: Token, sha: Sha): Cell {
    c.(row := c.row.(state := Completed, artifact := Some(Artifact(t, sha)), lease := None),
       completions := c.completions + 1)
  }

  function RecordFailure(row: Row, attempt: nat, retryable: bool): Row {
    row.(state := if !retryable || attempt >= row.maxAttempts then FailedTerminal else Registered, lease := None)
  }

  function Apply(c: Cell, s: Step): Cell
    requires Enabled(c, s)
  {
    match s
    case Claim(t) =>
      c.(row := c.row.(state := Rendering, attempt := c.row.attempt + 1, lease := Some(t)),
         tasks := c.tasks[t := Render(c.row.attempt + 1, Working)])
    case RenderFailed(t, retryable) => ToStage(c, t, Failing(retryable))
    case Put(t, sha) => ToStage(c.(objects := c.objects[t := sha]), t, Stored(sha))
    case PutFailed(t, landed) =>
      ToStage(if landed.Some? then c.(objects := c.objects[t := landed.value]) else c, t, Failing(true))
    case EncryptionFailed(t) => ToStage(c, t, Cleaning)
    case Oversized(t) => ToStage(c, t, Failing(false))
    case Complete(t, outcome) =>
      ToStage(if outcome.Refused? then c else Commit(c, t, c.tasks[t].stage.sha), t,
              if outcome.Committed? then Finished else Cleaning)
    case DeleteOwn(t, ok) => ToStage(if ok then c.(objects := c.objects - {t}) else c, t, Failing(true))
    case Fail(t, applied) =>
      ToStage(if applied then c.(row := RecordFailure(c.row, c.tasks[t].attempt, c.tasks[t].stage.retryable)) else c,
              t, Ended)
    case ClaimExpired(t) =>
      c.(row := c.row.(state := Expiring, lease := Some(t)),
         tasks := c.tasks[t :=
           Expiry(if c.row.artifact.Some? then Some(c.row.artifact.value.key) else None, false, false)])
    case DeleteExpired(t, ok) =>
      c.(objects := if ok && c.tasks[t].key.Some? then c.objects - {c.tasks[t].key.value} else c.objects,
         tasks := c.tasks[t :=
           c.tasks[t].(deleted := ok || c.tasks[t].key.None?, ended := !ok && c.tasks[t].key.Some?)])
    case ClearReference(t, applied) =>
      c.(row := if applied then c.row.(state := Expired, artifact := None, lease := None) else c.row,
         tasks := c.tasks[t := c.tasks[t].(ended := true)])
  }

  // ---------------------------------------------------------------- what every step keeps

  /** A lease is held by a task of the row's own kind, exactly while one is under way. */
  predicate LeaseInv(c: Cell) {
    && (c.row.lease.Some? <==> c.row.state.Rendering? || c.row.state.Expiring?)
    && (c.row.lease.Some? ==>
          && c.row.lease.value in c.tasks
          && (if c.tasks[c.row.lease.value].Render? then c.row.state.Rendering? else c.row.state.Expiring?))
  }

  /** A render is completed once, from `Rendering`, and never leaves the completed side. */
  predicate CompletionInv(c: Cell) {
    && c.completions <= 1
    && (c.row.artifact.Some? ==> c.completions == 1)
    && (c.row.state.Registered? || c.row.state.Rendering? ==> c.completions == 0)
    && (c.row.state.Completed? ==> c.row.artifact.Some?)
    && (c.row.artifact.Some? ==> c.row.state.Completed? || c.row.state.Expiring?)
  }

  /** The task that wrote the referenced artifact is past its one write. */
  predicate AuthorInv(c: Cell) {
    c.row.artifact.Some? ==>
      var t := c.row.artifact.value.key;
      && t in c.tasks && c.tasks[t].Render?
      && !c.tasks[t].stage.Working? && !c.tasks[t].stage.Stored?
  }

  /** What a task stored is there until somebody entitled deletes it. */
  predicate ObjectInv(c: Cell) {
    && (forall t | t in c.tasks && IsStored(c, t) :: t in c.objects && c.objects[t] == c.tasks[t].stage.sha)
    && (c.row.state.Completed? && c.row.artifact.Some? ==>
          var a := c.row.artifact.value;
          AtStage(c, a.key, Finished) || AtStage(c, a.key, Cleaning) ==>
            a.key in c.objects && c.objects[a.key] == a.sha)
  }

  /** A cleaner that holds the lease goes after the referenced object, and once it has
      deleted it the object stays gone. */
  predicate CleanerInv(c: Cell) {
    forall t | t in c.tasks && c.tasks[t].Expiry? :: CleanerKnows(c, t)
  }

  predicate CleanerKnows(c: Cell, t: Token)
    requires t in c.tasks && c.tasks[t].Expiry?
  {
    var task := c.tasks[t];
    && (c.row.state.Expiring? || c.row.state.Expired?)
    && (task.key.Some? ==> PastWriting(c, task.key.value))
    && (task.key.Some? && task.deleted ==> task.key.value !in c.objects)
    && (c.row.lease == Some(t) ==>
          task.key == if c.row.artifact.Some? then Some(c.row.artifact.value.key) else None)
  }

  /** This task will never write its object again. */
  predicate PastWriting(c: Cell, t: Token) {
    t in c.tasks && c.tasks[t].Render? && !c.tasks[t].stage.Working? && !c.tasks[t].stage.Stored?
  }

  predicate CellInv(c: Cell) {
    LeaseInv(c) && CompletionInv(c) && AuthorInv(c) && ObjectInv(c) && CleanerInv(c)
  }

  lemma StepKeepsLease(c: Cell, s: Step)
    requires LeaseInv(c) && Enabled(c, s)
    ensures LeaseInv(Apply(c, s))
  {
  }

  lemma StepKeepsCompletion(c: Cell, s: Step)
    requires LeaseInv(c) && CompletionInv(c) && Enabled(c, s)
    ensures CompletionInv(Apply(c, s))
  {
  }

  lemma StepKeepsAuthor(c: Cell, s: Step)
    requires LeaseInv(c) && CompletionInv(c) && AuthorInv(c) && Enabled(c, s)
    ensures AuthorInv(Apply(c, s))
  {
  }

  lemma StepKeepsObjects(c: Cell, s: Step)
    requires CellInv(c) && Enabled(c, s)
    ensures ObjectInv(Apply(c, s))
  {
  }

  lemma StepKeepsCleaners(c: Cell, s: Step)
    requires CellInv(c) && Enabled(c, s)
    ensures CleanerInv(Apply(c, s))
  {
  }
}
