/** Wake hints of the standalone node app: remote notifications that are coalesced by
    collapse ID, worked off by a task each, and answered no later than a timeout. */
module WakeHints {
  import opened Options

  type CollapseId = string
  type TaskId = nat

  /** A fetch completion handler; every notification brings its own. */
  type Completion = nat

  datatype FetchResult = NewData | NoData
  datatype Call = Call(completion: Completion, result: FetchResult)

  datatype PendingHint = PendingHint(completions: seq<Completion>, timeout: TaskId, worker: Option<TaskId>)

  /** `hint` is the ID a task will finish; `generation` is the timeout task of the hint it
      was started for. A task that ended never resumes. */
  datatype Task = Task(hint: CollapseId, generation: TaskId, isWorker: bool, cancelled: bool, ended: bool)

  // ---------------------------------------------------------------- order and debts

  /** `removeAll { $0 == id }`. */
  function Without(order: seq<CollapseId>, id: CollapseId): seq<CollapseId> {
    if order == [] then []
    else if order[0] == id then Without(order[1..], id)
    else [order[0]] + Without(order[1..], id)
  }

  predicate NoDuplicates(order: seq<CollapseId>) {
    forall i, k | 0 <= i < k < |order| :: order[i] != order[k]
  }

  /** The completions that the listed hints still owe. */
  function Owed(order: seq<CollapseId>, pending: map<CollapseId, PendingHint>): multiset<Completion>
    requires forall id | id in order :: id in pending
  {
    if order == [] then multiset{} else multiset(pending[order[0]].completions) + Owed(order[1..], pending)
  }

  function Called(calls: seq<Call>): multiset<Completion> {
    if calls == [] then multiset{} else Called(calls[..|calls| - 1]) + multiset{calls[|calls| - 1].completion}
  }

  lemma {:induction false} WithoutKeeps(order: seq<CollapseId>, id: CollapseId)
    requires NoDuplicates(order)
    ensures forall other :: other in Without(order, id) <==> other in order && other != id
    ensures NoDuplicates(Without(order, id))
  {
    if order != [] {
      var rest := Without(order[1..], id);
      WithoutKeeps(order[1..], id);
      assert order == [order[0]] + order[1..];
      assert order[0] !in order[1..];
      forall i, k | 0 <= i < k < |rest| + 1 ensures ([order[0]] + rest)[i] != ([order[0]] + rest)[k] {
        assert rest[k - 1] in rest;
      }
    }
  }

  lemma {:induction false} WithoutAbsent(order: seq<CollapseId>, id: CollapseId)
    requires id !in order
    ensures Without(order, id) == order
  {
    if order != [] {
      WithoutAbsent(order[1..], id);
    }
  }

  /** Debts depend only on the completions of the listed hints. */
  lemma {:induction false} SameDebts(order: seq<CollapseId>, p: map<CollapseId, PendingHint>,
      p': map<CollapseId, PendingHint>)
    requires forall id | id in order :: id in p && id in p' && p[id].completions == p'[id].completions
    ensures Owed(order, p) == Owed(order, p')
  {
    if order != [] {
      SameDebts(order[1..], p, p');
    }
  }

  /** Taking one hint out of the order settles exactly its completions. */
  lemma {:induction false} OwedWithout(order: seq<CollapseId>, p: map<CollapseId, PendingHint>, id: CollapseId)
    requires NoDuplicates(order) && id in order && forall other | other in order :: other in p
    ensures forall other | other in Without(order, id) :: other in p
    ensures Owed(order, p) == multiset(p[id].completions) + Owed(Without(order, id), p)
  {
    WithoutKeeps(order, id);
    assert order == [order[0]] + order[1..];
    if order[0] == id {
      assert id !in order[1..];
      WithoutAbsent(order[1..], id);
    } else {
      OwedWithout(order[1..], p, id);
      assert Without(order, id)[1..] == Without(order[1..], id);
    }
  }

  lemma {:induction false} OwedAppend(order: seq<CollapseId>, p: map<CollapseId, PendingHint>, id: CollapseId)
    requires id in p && forall other | other in order :: other in p
    ensures forall other | other in order + [id] :: other in p
    ensures Owed(order + [id], p) == Owed(order, p) + multiset(p[id].completions)
  {
    if order == [] {
      assert [] + [id] == [id];
    } else {
      OwedAppend(order[1..], p, id);
      assert (order + [id])[1..] == order[1..] + [id];
    }
  }

  /** One more completion on a hint is one more debt. */
  lemma OwedMore(order: seq<CollapseId>, p: map<CollapseId, PendingHint>, id: CollapseId, completion: Completion)
    requires NoDuplicates(order) && id in order && forall other | other in order :: other in p
    ensures var p' := p[id := p[id].(completions := p[id].completions + [completion])];
      Owed(order, p') == Owed(order, p) + multiset{completion}
  {
    var p' := p[id := p[id].(completions := p[id].completions + [completion])];
    OwedWithout(order, p, id);
    OwedWithout(order, p', id);
    WithoutKeeps(order, id);
    SameDebts(Without(order, id), p, p');
  }

  /** The calls that answer a list of completions, in order. */
  function Replies(completions: seq<Completion>, result: FetchResult): seq<Call> {
    if completions == [] then []
    else Replies(completions[..|completions| - 1], result) + [Call(completions[|completions| - 1], result)]
  }

  lemma {:induction false} RepliesCall(calls: seq<Call>, completions: seq<Completion>, result: FetchResult)
    ensures Called(calls + Replies(completions, result)) == Called(calls) + multiset(completions)
  {
    hide Called;
    if completions == [] {
      assert calls + [] == calls;
    } else {
      var n := |completions| - 1;
      var before := calls + Replies(completions[..n], result);
      RepliesCall(calls, completions[..n], result);
      OneCall(before, Call(completions[n], result));
      assert calls + Replies(completions, result) == before + [Call(completions[n], result)];
      assert completions == completions[..n] + [completions[n]];
    }
  }

  /** Every call since `before` reported no data. */
  predicate OnlyNoData(before: seq<Call>, after: seq<Call>) {
    before <= after && forall i | |before| <= i < |after| :: after[i].result.NoData?
  }

  lemma {:induction false} RepliesAreNoData(before: seq<Call>, calls: seq<Call>, completions: seq<Completion>)
    requires OnlyNoData(before, calls)
    ensures OnlyNoData(before, calls + Replies(completions, NoData))
  {
    if completions != [] {
      var n := |completions| - 1;
      RepliesAreNoData(before, calls, completions[..n]);
      assert calls + Replies(completions, NoData)
          == calls + Replies(completions[..n], NoData) + [Call(completions[n], NoData)];
    }
  }

  lemma OneCall(calls: seq<Call>, call: Call)
    ensures Called(calls + [call]) == Called(calls) + multiset{call.completion}
  {
    assert (calls + [call])[..|calls|] == calls;
  }

  // ---------------------------------------------------------------- what every event keeps

  /** `order` lists the pending hints once each. */
  ghost predicate Ordered(order: seq<CollapseId>, pending: map<CollapseId, PendingHint>) {
    NoDuplicates(order) && forall id :: id in order <==> id in pending
  }

  predicate Bounded(pending: map<CollapseId, PendingHint>, maximumHints: nat, maximumCompletions: nat) {
    && |pending| <= maximumHints
    && forall id | id in pending :: 1 <= |pending[id].completions| <= maximumCompletions
  }

  /** The tasks of a pending hint are of its own generation, and its timeout is live. */
  predicate Timed(pending: map<CollapseId, PendingHint>, tasks: map<TaskId, Task>, id: CollapseId)
    requires id in pending
  {
    var hint := pending[id];
    && hint.timeout in tasks && tasks[hint.timeout] == Task(id, hint.timeout, false, false, false)
    && (hint.worker.Some? ==>
          && hint.worker.value in tasks
          && tasks[hint.worker.value] == Task(id, hint.timeout, true, false, tasks[hint.worker.value].ended))
  }

  /** A task that may still finish its hint belongs to the hint that is pending now. */
  predicate Current(pending: map<CollapseId, PendingHint>, tasks: map<TaskId, Task>, k: TaskId)
    requires k in tasks
  {
    !tasks[k].cancelled && !tasks[k].ended ==>
      && tasks[k].hint in pending
      && pending[tasks[k].hint].timeout == tasks[k].generation
      && (k == tasks[k].generation || pending[tasks[k].hint].worker == Some(k))
  }

  predicate Scheduled(pending: map<CollapseId, PendingHint>, tasks: map<TaskId, Task>) {
    (forall id | id in pending :: Timed(pending, tasks, id)) && (forall k | k in tasks :: Current(pending, tasks, k))
  }

  function Cancelled(tasks: map<TaskId, Task>, k: TaskId): map<TaskId, Task>
    requires k in tasks
  {
    tasks[k := tasks[k].(cancelled := true)]
  }

  /** The tasks once both tasks of a hint are cancelled. */
  function Stopped(tasks: map<TaskId, Task>, hint: PendingHint): map<TaskId, Task>
    requires hint.timeout in tasks && (hint.worker.Some? ==> hint.worker.value in tasks)
  {
    var rest := Cancelled(tasks, hint.timeout);
    if hint.worker.Some? then Cancelled(rest, hint.worker.value) else rest
  }

  lemma FinishKeepsBounds(pending: map<CollapseId, PendingHint>, maximumHints: nat, maximumCompletions: nat,
      id: CollapseId)
    requires Bounded(pending, maximumHints, maximumCompletions) && id in pending
    ensures Bounded(pending - {id}, maximumHints, maximumCompletions)
  {
    assert |pending - {id}| == |pending| - 1;
  }

  lemma NothingToFinish(order: seq<CollapseId>, pending: map<CollapseId, PendingHint>, id: CollapseId)
    requires Ordered(order, pending) && id !in pending
    ensures Without(order, id) == order && pending - {id} == pending
  {
    WithoutAbsent(order, id);
  }

  lemma FinishSettles(order: seq<CollapseId>, pending: map<CollapseId, PendingHint>, calls: seq<Call>, id: CollapseId,
      result: FetchResult)
    requires Ordered(order, pending) && id in pending
    ensures Ordered(Without(order, id), pending - {id})
    ensures Called(calls + Replies(pending[id].completions, result)) + Owed(Without(order, id), pending - {id})
         == Called(calls) + Owed(order, pending)
  {
    OwedWithout(order, pending, id);
    WithoutKeeps(order, id);
    SameDebts(Without(order, id), pending, pending - {id});
    RepliesCall(calls, pending[id].completions, result);
  }

  lemma FinishKeepsSchedule(pending: map<CollapseId, PendingHint>, tasks: map<TaskId, Task>, id: CollapseId)
    requires Scheduled(pending, tasks) && id in pending
    ensures Timed(pending, tasks, id) && Scheduled(pending - {id}, Stopped(tasks, pending[id]))
  {
    assert Timed(pending, tasks, id);
    var left, tasks' := pending - {id}, Stopped(tasks, pending[id]);
    forall other | other in left ensures Timed(left, tasks', other) {
      assert Timed(pending, tasks, other);
    }
    forall k | k in tasks' ensures Current(left, tasks', k) {
      assert Current(pending, tasks, k);
    }
  }

  lemma NewHintKeepsSchedule(pending: map<CollapseId, PendingHint>, tasks: map<TaskId, Task>, id: CollapseId, k: TaskId,
      completions: seq<Completion>)
    requires Scheduled(pending, tasks) && id !in pending && k !in tasks
    ensures Scheduled(pending[id := PendingHint(completions, k, None)], tasks[k := Task(id, k, false, false, false)])
  {
    var pending', tasks' := pending[id := PendingHint(completions, k, None)],
      tasks[k := Task(id, k, false, false, false)];
    forall other | other in pending' ensures Timed(pending', tasks', other) {
      assert other != id ==> Timed(pending, tasks, other);
    }
    forall j | j in tasks' ensures Current(pending', tasks', j) {
      assert j != k ==> Current(pending, tasks, j);
    }
  }

  lemma NewHintKeepsRest(order: seq<CollapseId>, pending: map<CollapseId, PendingHint>, id: CollapseId, k: TaskId,
                         completion: Completion, maximumHints: nat, maximumCompletions: nat)
    requires Ordered(order, pending) && Bounded(pending, maximumHints, maximumCompletions)
    requires id !in pending && |pending| < maximumHints && maximumCompletions > 0
    ensures var pending' := pending[id := PendingHint([completion], k, None)];
      && Ordered(order + [id], pending') && Bounded(pending', maximumHints, maximumCompletions)
      && Owed(order + [id], pending') == Owed(order, pending) + multiset{completion}
  {
    var pending' := pending[id := PendingHint([completion], k, None)];
    OwedAppend(order, pending', id);
    SameDebts(order, pending, pending');
    assert |pending'| == |pending| + 1;
  }

  /** One more completion on a pending hint changes nothing but the debt. */
  lemma Coalesces(order: seq<CollapseId>, pending: map<CollapseId, PendingHint>, tasks: map<TaskId, Task>,
      id: CollapseId, completion: Completion, maximumHints: nat, maximumCompletions: nat)
    requires Ordered(order, pending) && Bounded(pending, maximumHints, maximumCompletions) && Scheduled(pending, tasks)
    requires id in pending && |pending[id].completions| < maximumCompletions
    ensures var pending' := pending[id := pending[id].(completions := pending[id].completions + [completion])];
      && Ordered(order, pending') && Bounded(pending', maximumHints, maximumCompletions) && Scheduled(pending', tasks)
      && Owed(order, pending') == Owed(order, pending) + multiset{completion}
  {
    var pending' := pending[id := pending[id].(completions := pending[id].completions + [completion])];
    OwedMore(order, pending, id, completion);
    assert |pending'| == |pending|;
    forall other | other in pending' ensures Timed(pending', tasks, other) {
      assert Timed(pending, tasks, other);
    }
    forall k | k in tasks ensures Current(pending', tasks, k) {
      assert Current(pending, tasks, k);
    }
  }

  lemma WorkerKeepsRest(order: seq<CollapseId>, pending: map<CollapseId, PendingHint>, id: CollapseId, k: TaskId)
    requires Ordered(order, pending) && id in pending
    ensures var pending' := pending[id := pending[id].(worker := Some(k))];
      Ordered(order, pending') && Owed(order, pending') == Owed(order, pending)
  {
    SameDebts(order, pending, pending[id := pending[id].(worker := Some(k))]);
  }

  lemma WorkerKeepsBounds(pending: map<CollapseId, PendingHint>, id: CollapseId, k: TaskId, maximumHints: nat,
      maximumCompletions: nat)
    requires Bounded(pending, maximumHints, maximumCompletions) && id in pending
    ensures Bounded(pending[id := pending[id].(worker := Some(k))], maximumHints, maximumCompletions)
  {
    assert |pending[id := pending[id].(worker := Some(k))]| == |pending|;
  }

  /** Surviving hints keep their timeout, and a worker once they have one. */
  predicate KeepsHints(p: map<CollapseId, PendingHint>, p': map<CollapseId, PendingHint>) {
    forall id | id in p ::
      id in p' && p'[id].timeout == p[id].timeout && (p[id].worker.Some? ==> p'[id].worker == p[id].worker)
  }

  /** No task is forgotten, and what ended stays ended. */
  predicate KeepsTasks(tasks: map<TaskId, Task>, tasks': map<TaskId, Task>) {
    forall k | k in tasks :: k in tasks' && (tasks[k].ended ==> tasks'[k].ended)
  }

  lemma TaskAdded(tasks: map<TaskId, Task>, k: TaskId, task: Task)
    requires k !in tasks
    ensures KeepsTasks(tasks, tasks[k := task])
  {
  }

  /** The hint has a worker that has not ended. */
  predicate Runs(pending: map<CollapseId, PendingHint>, tasks: map<TaskId, Task>, id: CollapseId)
    requires id in pending
  {
    var worker := pending[id].worker;
    worker.Some? && worker.value in tasks && !tasks[worker.value].ended && tasks[worker.value].isWorker
  }

  /** The hint has a worker that ended without finishing it. */
  predicate Abandoned(pending: map<CollapseId, PendingHint>, tasks: map<TaskId, Task>, id: CollapseId) {
    id in pending && pending[id].worker.Some? && pending[id].worker.value in tasks &&
      tasks[pending[id].worker.value].ended
  }

  /** Of the tasks that may still finish an abandoned hint, its timeout is the only one. */
  lemma OnlyTimeoutIsLeft(pending: map<CollapseId, PendingHint>, tasks: map<TaskId, Task>, id: CollapseId, k: TaskId)
    requires Scheduled(pending, tasks) && Abandoned(pending, tasks, id) && k in tasks && !tasks[k].ended
    ensures k == pending[id].timeout <==> !tasks[k].cancelled && tasks[k].hint == id
    ensures k == pending[id].timeout ==> !tasks[k].isWorker
  {
    assert Timed(pending, tasks, id) && Current(pending, tasks, k);
  }

  lemma NothingOwed(order: seq<CollapseId>, pending: map<CollapseId, PendingHint>)
    requires Ordered(order, pending) && pending == map[]
    ensures Owed(order, pending) == multiset{}
  {
    if order != [] { SomeMember(order); }
  }

  lemma SomeMember(order: seq<CollapseId>)
    requires order != []
    ensures exists id :: id in order
  {
    assert order[0] in order;
  }

  lemma WorkerKeepsSchedule(pending: map<CollapseId, PendingHint>, tasks: map<TaskId, Task>, id: CollapseId, k: TaskId)
    requires Scheduled(pending, tasks) && id in pending && pending[id].worker.None? && k !in tasks
    ensures Scheduled(pending[id := pending[id].(worker := Some(k))],
      tasks[k := Task(id, pending[id].timeout, true, false, false)])
  {
    var pending' := pending[id := pending[id].(worker := Some(k))];
    var tasks' := tasks[k := Task(id, pending[id].timeout, true, false, false)];
    forall other | other in pending' ensures Timed(pending', tasks', other) {
      assert Timed(pending, tasks, other);
    }
    forall j | j in tasks' ensures Current(pending', tasks', j) {
      assert j != k ==> Current(pending, tasks, j);
    }
  }

  /** A task may end when it is cancelled, or when it is a worker. */
  lemma EndKeepsSchedule(pending: map<CollapseId, PendingHint>, tasks: map<TaskId, Task>, k: TaskId)
    requires Scheduled(pending, tasks) && k in tasks && (tasks[k].cancelled || tasks[k].isWorker)
    ensures Scheduled(pending, tasks[k := tasks[k].(ended := true)])
  {
    var tasks' := tasks[k := tasks[k].(ended := true)];
    forall id | id in pending ensures Timed(pending, tasks', id) {
      assert Timed(pending, tasks, id);
    }
    forall j | j in tasks' ensures Current(pending, tasks', j) {
      assert Current(pending, tasks, j);
    }
  }

  // ---------------------------------------------------------------- the delegate

  class AppDelegate {
    const maximumPendingHints: nat
    const maximumCompletionsPerHint: nat
    var modelInstalled: bool
    var modelIsReady: bool
    var pendingOrder: seq<CollapseId>
    var pending: map<CollapseId, PendingHint>
    var tasks: map<TaskId, Task>
    var nextTask: TaskId
    var calls: seq<Call>
    ghost var received: multiset<Completion>

    constructor (maximumPendingHints: int, maximumCompletionsPerHint: int)
      ensures Valid() && received == multiset{} && calls == [] && pending == map[]
    {
      this.maximumPendingHints := if maximumPendingHints < 1 then 1 else maximumPendingHints;
      this.maximumCompletionsPerHint := if maximumCompletionsPerHint < 1 then 1 else maximumCompletionsPerHint;
      modelInstalled, modelIsReady := false, false;
      pendingOrder, pending, tasks, nextTask, calls, received := [], map[], map[], 0, [], multiset{};
    }

    /** Last clause: every completion received was called exactly once or is pending
        exactly once. */
    ghost predicate Valid()
      reads this`pendingOrder, this`pending, this`tasks, this`nextTask, this`calls, this`received
    {
      && maximumPendingHints >= 1 && maximumCompletionsPerHint >= 1
      && Ordered(pendingOrder, pending)
      && Bounded(pending, maximumPendingHints, maximumCompletionsPerHint)
      && Scheduled(pending, tasks)
      && (forall k | k in tasks :: k < nextTask)
      && received == Called(calls) + Owed(pendingOrder, pending)
    }

    method Install()
      modifies this`modelInstalled
      ensures modelInstalled
    {
      modelInstalled := true;
    }

    /** The delegate holds the model weakly. */
    method ModelGone()
      modifies this`modelInstalled
      ensures !modelInstalled
    {
      modelInstalled := false;
    }

    // -------------------------------------------------------------- finishing

    method CallAll(completions: seq<Completion>, result: FetchResult)
      modifies this`calls
      ensures calls == old(calls) + Replies(completions, result)
    {
      for i := 0 to |completions|
        invariant calls == old(calls) + Replies(completions[..i], result)
      {
        assert completions[..i + 1][..i] == completions[..i];
        calls := calls + [Call(completions[i], result)];
      }
      assert completions[..|completions|] == completions;
    }

    /** Answers every completion of a pending hint and cancels both of its tasks. */
    method Finish(id: CollapseId, result: FetchResult)
      requires Valid()
      modifies this`pending, this`pendingOrder, this`tasks, this`calls
      ensures Valid() && pending == old(pending) - {id} && pendingOrder == Without(old(pendingOrder), id)
      ensures id in old(pending) ==>
        && Timed(old(pending), old(tasks), id)
        && tasks == Stopped(old(tasks), old(pending)[id])
        && calls == old(calls) + Replies(old(pending)[id].completions, result)
      ensures id !in old(pending) ==> tasks == old(tasks) && calls == old(calls)
      ensures KeepsTasks(old(tasks), tasks)
    {
      hide Scheduled, Called, Owed, Without, Ordered, Replies, Bounded;
      if id !in pending {
        NothingToFinish(pendingOrder, pending, id);
        return;
      }
      var hint := pending[id];
      FinishSettles(pendingOrder, pending, calls, id, result);
      FinishKeepsSchedule(pending, tasks, id);
      FinishKeepsBounds(pending, maximumPendingHints, maximumCompletionsPerHint, id);
      pending := pending - {id};
      pendingOrder := Without(pendingOrder, id);
      tasks := Cancelled(tasks, hint.timeout);
      if hint.worker.Some? { tasks := Cancelled(tasks, hint.worker.value); }
      CallAll(hint.completions, result);
    }

    // -------------------------------------------------------------- events

    /** Gives a pending hint its worker, once, if there is a model. */
    method Start(id: CollapseId)
      requires Valid()
      modifies this`pending, this`tasks, this`nextTask
      ensures Valid() && pending.Keys == old(pending).Keys
      ensures forall other | other in pending ::
        pending[other].(worker := None) == old(pending)[other].(worker := None)
      ensures forall other | other in pending && other != id :: pending[other] == old(pending)[other]
      ensures id in pending ==> (pending[id].worker.Some? <==> old(pending)[id].worker.Some? || modelInstalled)
      ensures KeepsHints(old(pending), pending) && KeepsTasks(old(tasks), tasks)
      ensures id in pending && old(pending)[id].worker.None? && modelInstalled ==> Runs(pending, tasks, id)
    {
      hide Scheduled, Called, Owed, Ordered, Bounded;
      if id !in pending || pending[id].worker.Some? || !modelInstalled { return; }
      WorkerKeepsSchedule(pending, tasks, id, nextTask);
      WorkerKeepsRest(pendingOrder, pending, id, nextTask);
      WorkerKeepsBounds(pending, id, nextTask, maximumPendingHints, maximumCompletionsPerHint);
      tasks := tasks[nextTask := Task(id, pending[id].timeout, true, false, false)];
      pending := pending[id := pending[id].(worker := Some(nextTask))];
      nextTask := nextTask + 1;
    }

    method Answer(completion: Completion)
      requires Valid()
      modifies this`calls, this`received
      ensures Valid() && received == old(received) + multiset{completion}
      ensures calls == old(calls) + [Call(completion, NoData)]
    {
      hide Scheduled, Called, Owed, Ordered, Bounded;
      OneCall(calls, Call(completion, NoData));
      received := received + multiset{completion};
      calls := calls + [Call(completion, NoData)];
    }

    method Coalesce(id: CollapseId, completion: Completion)
      requires Valid() && id in pending && |pending[id].completions| < maximumCompletionsPerHint
      modifies this`pending, this`received
      ensures Valid() && received == old(received) + multiset{completion}
      ensures pending ==
        old(pending)[id := old(pending)[id].(completions := old(pending)[id].completions + [completion])]
    {
      hide Scheduled, Called, Owed, Ordered, Bounded;
      Coalesces(pendingOrder, pending, tasks, id, completion, maximumPendingHints, maximumCompletionsPerHint);
      received := received + multiset{completion};
      pending := pending[id := pending[id].(completions := pending[id].completions + [completion])];
    }

    method AddHint(id: CollapseId, completion: Completion)
      requires Valid() && id !in pending && |pending| < maximumPendingHints
      modifies this`pending, this`pendingOrder, this`tasks, this`nextTask, this`received
      ensures Valid() && received == old(received) + multiset{completion}
      ensures pending == old(pending)[id := PendingHint([completion], old(nextTask), None)]
      ensures KeepsTasks(old(tasks), tasks)
    {
      hide Scheduled, Called, Owed, Ordered, Bounded;
      NewHintKeepsSchedule(pending, tasks, id, nextTask, [completion]);
      NewHintKeepsRest(pendingOrder, pending, id, nextTask, completion, maximumPendingHints, maximumCompletionsPerHint);
      TaskAdded(tasks, nextTask, Task(id, nextTask, false, false, false));
      hide KeepsTasks;
      received := received + multiset{completion};
      pendingOrder := pendingOrder + [id];
      tasks := tasks[nextTask := Task(id, nextTask, false, false, false)];
      pending := pending[id := PendingHint([completion], nextTask, None)];
      nextTask := nextTask + 1;
    }

    /** Refuses, coalesces or adds; only a refusal answers. */
    method Enqueue(id: CollapseId, completion: Completion)
      requires Valid()
      modifies this`pending, this`pendingOrder, this`tasks, this`nextTask, this`calls, this`received
      ensures Valid() && received == old(received) + multiset{completion}
      ensures id in old(pending) ==>
        calls == old(calls) +
          if |old(pending)[id].completions| >= maximumCompletionsPerHint then [Call(completion, NoData)] else []
      ensures id !in old(pending) ==>
        calls == old(calls) + if |old(pending)| >= maximumPendingHints then [Call(completion, NoData)] else []
      ensures calls == if Refuses(old(pending), id) then old(calls) + [Call(completion, NoData)] else old(calls)
      ensures !Refuses(old(pending), id) ==> id in pending && completion in pending[id].completions
      ensures pending.Keys == old(pending).Keys + (if Refuses(old(pending), id) then {} else {id})
      ensures KeepsHints(old(pending), pending) && KeepsTasks(old(tasks), tasks)
      ensures id in pending && id !in old(pending) && modelIsReady && modelInstalled ==> Runs(pending, tasks, id)
    {
      hide Valid;
      if Refuses(pending, id) {
        Answer(completion);
      } else if id in pending {
        Coalesce(id, completion);
      } else {
        AddHint(id, completion);
        if modelIsReady { Start(id); }
      }
    }

    /** The completion limit of a pending hint, or the limit on hints, is reached. */
    predicate Refuses(pending: map<CollapseId, PendingHint>, id: CollapseId) {
      if id in pending then |pending[id].completions| >= maximumCompletionsPerHint else |pending| >= maximumPendingHints
    }

    /** A notification; without a well-formed collapse ID it is answered at once. */
    method Receive(id: Option<CollapseId>, completion: Completion)
      requires Valid()
      modifies this`pending, this`pendingOrder, this`tasks, this`nextTask, this`calls, this`received
      ensures Valid() && received == old(received) + multiset{completion}
      ensures id.None? ==> calls == old(calls) + [Call(completion, NoData)] && pending == old(pending)
      ensures id.Some? ==>
        calls == if Refuses(old(pending), id.value) then old(calls) + [Call(completion, NoData)] else old(calls)
      ensures KeepsHints(old(pending), pending) && KeepsTasks(old(tasks), tasks)
      ensures
        id.Some? && !Refuses(old(pending), id.value) && id.value !in old(pending) && modelIsReady && modelInstalled ==>
        id.value in pending && Runs(pending, tasks, id.value)
    {
      hide Valid;
      if id.None? {
        Answer(completion);
      } else {
        Enqueue(id.value, completion);
      }
    }

    /** Every hint that was waiting for the model gets its worker. */
    method ModelDidStart()
      requires Valid()
      modifies this`modelIsReady, this`pending, this`tasks, this`nextTask
      ensures Valid() && modelIsReady && pending.Keys == old(pending).Keys
      ensures modelInstalled ==> forall id | id in pending :: pending[id].worker.Some?
      ensures KeepsHints(old(pending), pending) && KeepsTasks(old(tasks), tasks)
    {
      hide Valid;
      modelIsReady := true;
      AllListed();
      for i := 0 to |pendingOrder|
        invariant Valid() && modelIsReady && pending.Keys == old(pending).Keys
        invariant KeepsHints(old(pending), pending) && KeepsTasks(old(tasks), tasks)
        invariant modelInstalled ==> forall k | 0 <= k < i && pendingOrder[k] in pending ::
          pending[pendingOrder[k]].worker.Some?
      {
        Start(pendingOrder[i]);
      }
    }

    /** Every pending hint is answered with no data. */
    method ModelStartFailed()
      requires Valid()
      modifies this`modelIsReady, this`pending, this`pendingOrder, this`tasks, this`calls
      ensures Valid() && !modelIsReady && pending == map[] && Called(calls) == received
      ensures OnlyNoData(old(calls), calls)
    {
      hide Valid, Replies, Called, Without, Stopped, Timed;
      modelIsReady := false;
      var ids := pendingOrder;
      AllListed();
      for i := 0 to |ids|
        invariant Valid() && !modelIsReady && pending.Keys <= old(pending).Keys
        invariant OnlyNoData(old(calls), calls)
        invariant forall k | 0 <= k < i :: ids[k] !in pending
      {
        if ids[i] in pending { RepliesAreNoData(old(calls), calls, pending[ids[i]].completions); }
        Finish(ids[i], NoData);
      }
      AllAnswered();
    }

    lemma IsCurrent(k: TaskId)
      requires Valid() && k in tasks
      ensures Current(pending, tasks, k)
    {
      hide Called, Owed, Ordered, Bounded, Current, Timed;
    }

    lemma AllListed()
      requires Valid()
      ensures forall id | id in pending :: id in pendingOrder
    {
      hide Scheduled, Called, Owed, Bounded;
    }

    lemma AllAnswered()
      requires Valid() && pending == map[]
      ensures Called(calls) == received
    {
      NothingOwed(pendingOrder, pending);
    }

    method End(k: TaskId)
      requires Valid() && k in tasks && (tasks[k].cancelled || tasks[k].isWorker)
      modifies this`tasks
      ensures Valid() && tasks == old(tasks)[k := old(tasks)[k].(ended := true)]
    {
      hide Scheduled, Called, Owed, Ordered, Bounded;
      EndKeepsSchedule(pending, tasks, k);
      tasks := tasks[k := tasks[k].(ended := true)];
    }

    /** A sleeping or working task resumes. `reconciled` is the model's answer to a worker,
        or `None` when the model was gone before the worker began. A cancelled task does
        nothing; any other finishes the hint it was started for, and no later one. */
    method Resume(k: TaskId, reconciled: Option<bool>)
      requires Valid() && k in tasks && !tasks[k].ended
      modifies this`pending, this`pendingOrder, this`tasks, this`calls
      ensures Valid() && k in tasks && tasks[k].ended && KeepsTasks(old(tasks), tasks)
      ensures var task := old(tasks)[k];
        if task.cancelled || (task.isWorker && reconciled.None?)
        then pending == old(pending) && calls == old(calls)
        else
          && task.hint in old(pending) && old(pending)[task.hint].timeout == task.generation
          && pending == old(pending) - {task.hint}
          && calls == old(calls) + Replies(old(pending)[task.hint].completions,
                                           if task.isWorker && reconciled.value then NewData else NoData)
    {
      hide Valid, Replies, Without, Timed;
      var task := tasks[k];
      IsCurrent(k);
      if !task.cancelled && !(task.isWorker && reconciled.None?) {
        Finish(task.hint, if task.isWorker && reconciled.value then NewData else NoData);
      }
      End(k);
    }

    /** Every event the delegate sees. */
    method Handle(event: Event)
      requires Valid() && (event.Resumed? ==> event.task in tasks && !tasks[event.task].ended)
      modifies this
      ensures Valid()
      ensures forall id | Abandoned(old(pending), old(tasks), id) ::
        (id !in pending <==> EndsAbandoned(old(pending), event, id)) &&
          (id in pending ==> Abandoned(pending, tasks, id))
    {
      match event
      case Installed => Install();
      case Gone => ModelGone();
      case Started => HandleStart();
      case StartFailed =>
        ModelStartFailed();
      case Notified(id, completion) => HandleNotification(id, completion);
      case Resumed(k, reconciled) => HandleResume(k, reconciled);
    }

    method HandleStart()
      requires Valid()
      modifies this
      ensures Valid() && AbandonedKept(old(pending), old(tasks), pending, tasks)
    {
      hide Valid;
      ModelDidStart();
      KeptAbandoned(old(pending), old(tasks), pending, tasks);
    }

    method HandleNotification(id: Option<CollapseId>, completion: Completion)
      requires Valid()
      modifies this
      ensures Valid() && AbandonedKept(old(pending), old(tasks), pending, tasks)
    {
      hide Valid;
      Receive(id, completion);
      KeptAbandoned(old(pending), old(tasks), pending, tasks);
    }

    method HandleResume(k: TaskId, reconciled: Option<bool>)
      requires Valid() && k in tasks && !tasks[k].ended
      modifies this
      ensures Valid()
      ensures forall id | Abandoned(old(pending), old(tasks), id) ::
        (id !in pending <==> k == old(pending)[id].timeout) && (id in pending ==> Abandoned(pending, tasks, id))
    {
      forall id | Abandoned(pending, tasks, id)
        ensures k == pending[id].timeout <==> !tasks[k].cancelled && tasks[k].hint == id
        ensures k == pending[id].timeout ==> !tasks[k].isWorker
      {
        OnlyTimeoutIsLeft(pending, tasks, id, k);
      }
      hide Valid, Replies;
      Resume(k, reconciled);
    }
  }

  datatype Event =
    | Installed | Gone | Started | StartFailed
    | Notified(id: Option<CollapseId>, completion: Completion)
    | Resumed(task: TaskId, reconciled: Option<bool>)

  /** What ends an abandoned hint: its timeout, or a model that failed to start. */
  predicate EndsAbandoned(pending: map<CollapseId, PendingHint>, event: Event, id: CollapseId)
    requires id in pending
  {
    event.StartFailed? || (event.Resumed? && event.task == pending[id].timeout)
  }

  ghost predicate AbandonedKept(p: map<CollapseId, PendingHint>, tasks: map<TaskId, Task>,
                                p': map<CollapseId, PendingHint>, tasks': map<TaskId, Task>) {
    forall id | Abandoned(p, tasks, id) :: Abandoned(p', tasks', id)
  }

  lemma KeptAbandoned(p: map<CollapseId, PendingHint>, tasks: map<TaskId, Task>,
                      p': map<CollapseId, PendingHint>, tasks': map<TaskId, Task>)
    requires KeepsHints(p, p') && KeepsTasks(tasks, tasks')
    ensures AbandonedKept(p, tasks, p', tasks')
  {
  }

  /** A hint is abandoned when the model goes between its notification and its worker. */
  method AbandonedHint() returns (delegate: AppDelegate)
    ensures fresh(delegate) && delegate.Valid() && Abandoned(delegate.pending, delegate.tasks, "hint")
  {
    hide Scheduled, Called, Owed, Ordered, Bounded, Replies;
    delegate := new AppDelegate(32, 8);
    delegate.Install();
    delegate.ModelDidStart();
    delegate.Receive(Some("hint"), 0);
    delegate.ModelGone();
    delegate.Resume(delegate.pending["hint"].worker.value, None);
  }
}
