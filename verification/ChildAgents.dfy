/** Child agents in one process: spawned blocking or detached, joined, watched and cancelled. */
module ChildAgents {
  import opened Prelude
  import TurnModel

  type Id = string

  /** How a child's task ends; `timeout` marks an error that is a TimeoutError itself. */
  datatype Ending = Returned(result: TurnModel.Result) | Errored(timeout: bool) | WasCancelled

  datatype Task = Live | Over(ending: Ending)

  datatype TaskState = Succeeded | Failed | Cancelled | RunningNow

  datatype Book = Book(tasks: map<Id, Task>, results: map<Id, TurnModel.Result>)

  const EMPTY := Book(map[], map[])

  /** What happens while a join waits for a live task: the task ends by itself, the join's own
      timeout passes first, or the joiner is cancelled. `ending` is how the task ends then. */
  datatype Wait = TaskEnds(ending: Ending) | TimesOut(ending: Ending) | JoinerCancelled(ending: Ending)

  datatype Joined = Result(result: TurnModel.Result) | NotFound | ChildTimeout | ChildError | CancelledError

  // ---- meaning ------------------------------------------------------------------------------

  function StatusOf(b: Book, id: Id): Option<TaskState> {
    if id in b.results then Some(Succeeded)
    else if id !in b.tasks then None
    else
      match b.tasks[id]
      case Live => Some(RunningNow)
      case Over(Returned(_)) => Some(Succeeded)
      case Over(Errored(_)) => Some(Failed)
      case Over(WasCancelled) => Some(Cancelled)
  }

  /** What a child has come to, if it came to a result. */
  function ResultOf(b: Book, id: Id): Option<TurnModel.Result> {
    if id in b.results then Some(b.results[id])
    else if id in b.tasks && b.tasks[id].Over? && b.tasks[id].ending.Returned? then Some(b.tasks[id].ending.result)
    else None
  }

  predicate Known(b: Book, id: Id) {
    id in b.tasks || id in b.results
  }

  /** A stored result of a detached child is the one its task returned. */
  predicate ResultsFit(b: Book) {
    forall id :: id in b.tasks && id in b.results ==> b.tasks[id] == Over(Returned(b.results[id]))
  }

  function EndTask(b: Book, id: Id, ending: Ending): Book {
    if id in b.tasks && b.tasks[id].Live? then b.(tasks := b.tasks[id := Over(ending)]) else b
  }

  // ---- operations ---------------------------------------------------------------------------------

  datatype Op =
    | SpawnBlocking(id: Id, ending: Ending)
    | SpawnDetached(id: Id)
    | TaskFinishes(id: Id, ending: Ending)
    | Join(id: Id, timeout: bool, w: Wait)
    | Cancel(id: Id, ending: Ending)

  /** Child ids are fresh, and only a join with a timeout times out. */
  predicate Possible(b: Book, op: Op) {
    && (op.SpawnBlocking? || op.SpawnDetached? ==> !Known(b, op.id))
    && (op.Join? && op.w.TimesOut? ==> op.timeout)
  }

  predicate Waits(b: Book, id: Id) {
    id !in b.results && id in b.tasks && b.tasks[id].Live?
  }

  function JoinAnswer(b: Book, id: Id, timeout: bool, w: Wait): Joined {
    if id in b.results then Result(b.results[id])
    else if id !in b.tasks then NotFound
    else if Waits(b, id) && w.JoinerCancelled? && timeout then CancelledError
    else if Waits(b, id) && w.TimesOut? then ChildTimeout
    else
      match (if Waits(b, id) then w.ending else b.tasks[id].ending)
      case Returned(r) => Result(r)
      case Errored(isTimeout) => if isTimeout then ChildTimeout else ChildError
      case WasCancelled => CancelledError
  }

  function Next(b: Book, op: Op): Book {
    match op
    case SpawnBlocking(id, ending) => if ending.Returned? then b.(results := b.results[id := ending.result]) else b
    case SpawnDetached(id) => b.(tasks := b.tasks[id := Live])
    case TaskFinishes(id, ending) => EndTask(b, id, ending)
    case Cancel(id, ending) => EndTask(b, id, ending)
    case Join(id, timeout, w) =>
      var after := if Waits(b, id) && !(w.JoinerCancelled? && timeout) then EndTask(b, id, w.ending) else b;
      var answer := JoinAnswer(b, id, timeout, w);
      if answer.Result? then after.(results := after.results[id := answer.result]) else after
  }

  predicate Settled(s: Option<TaskState>) {
    s.Some? && s.value != RunningNow
  }

  // ---- the backend object ----------------------------------------------------------------------

  /** Nothing about another child has changed. */
  predicate SameChild(before: Book, after: Book, id: Id) {
    StatusOf(after, id) == StatusOf(before, id) && ResultOf(after, id) == ResultOf(before, id)
  }

  class InProcessBackend {
    var tasks: map<Id, Task>
    var results: map<Id, TurnModel.Result>

    function View(): Book
      reads this
    {
      Book(tasks, results)
    }

    ghost predicate Valid()
      reads this
    {
      ResultsFit(View())
    }

    constructor ()
      ensures Valid() && View() == EMPTY
    {
      tasks, results := map[], map[];
    }

    /** A blocking child that returns is known from then on as succeeded, with its result; one that
        fails raises out of `spawn` and stays unknown. */
    method SpawnBlocking(id: Id, ending: Ending) returns (spawned: bool)
      requires Valid() && !Known(View(), id)
      modifies this
      ensures Valid() && View() == Next(old(View()), Op.SpawnBlocking(id, ending))
      ensures spawned <==> ending.Returned?
      ensures spawned ==> StatusOf(View(), id) == Some(Succeeded) && ResultOf(View(), id) == Some(ending.result)
      ensures !spawned ==> View() == old(View()) && StatusOf(View(), id) == None
      ensures forall x :: x != id ==> SameChild(old(View()), View(), x)
    {
      if !ending.Returned? {
        return false;
      }
      results := results[id := ending.result];
      spawned := true;
    }

    /** A detached child runs, and has no result yet. */
    method SpawnDetached(id: Id)
      requires Valid() && !Known(View(), id)
      modifies this
      ensures Valid() && View() == Next(old(View()), Op.SpawnDetached(id))
      ensures StatusOf(View(), id) == Some(RunningNow) && ResultOf(View(), id) == None
      ensures forall x :: x != id ==> SameChild(old(View()), View(), x)
    {
      tasks := tasks[id := Live];
    }

    /** The event loop runs a child's task to its end. */
    method Finish(id: Id, ending: Ending)
      requires Valid()
      modifies this
      ensures Valid() && View() == Next(old(View()), TaskFinishes(id, ending))
      ensures forall x :: x != id ==> SameChild(old(View()), View(), x)
    {
      if id in tasks && tasks[id].Live? {
        tasks := tasks[id := Over(ending)];
      }
    }

    /** `w` is looked at only if the join has to wait. */
    method Join(id: Id, timeout: bool, w: Wait) returns (answer: Joined)
      requires Valid()
      requires w.TimesOut? ==> timeout
      modifies this
      ensures Valid() && View() == Next(old(View()), Op.Join(id, timeout, w))
      ensures answer == JoinAnswer(old(View()), id, timeout, w)
      ensures answer.Result? ==> ResultOf(View(), id) == Some(answer.result)
      ensures answer.Result? || answer.ChildTimeout? ==> Settled(StatusOf(View(), id))
      ensures forall x :: x != id ==> SameChild(old(View()), View(), x)
    {
      if id in results {
        return Result(results[id]);
      }
      if id !in tasks {
        return NotFound;
      }
      var ending := w.ending;
      if tasks[id].Over? {
        ending := tasks[id].ending;
      } else {
        if w.JoinerCancelled? && timeout {
          // The task is shielded from the joiner's cancellation.
          return CancelledError;
        }
        tasks := tasks[id := Over(ending)];
        if w.TimesOut? {
          return ChildTimeout;
        }
      }
      if ending == Errored(true) {
        return ChildTimeout;
      }
      if ending.Errored? {
        return ChildError;
      }
      if ending.WasCancelled? {
        return CancelledError;
      }
      results := results[id := ending.result];
      answer := Result(ending.result);
    }

    /** Succeeded means there is a result, running that a join would wait, and no status that there is no
        such child. */
    method Status(id: Id) returns (status: Option<TaskState>)
      requires Valid()
      ensures status == StatusOf(View(), id)
      ensures status == Some(Succeeded) <==> ResultOf(View(), id).Some?
      ensures status == Some(RunningNow) <==> Waits(View(), id)
      ensures status == None <==> !Known(View(), id)
    {
      if id in results {
        return Some(Succeeded);
      }
      if id !in tasks {
        return None;
      }
      if tasks[id] == Over(WasCancelled) {
        return Some(Cancelled);
      }
      if tasks[id].Over? {
        return Some(if tasks[id].ending.Errored? then Failed else Succeeded);
      }
      status := Some(RunningNow);
    }

    /** Cancels and drains, `ending` being how the task takes it: a child with a task is finished when
        this returns, and one that was finished before is as it was. */
    method Cancel(id: Id, ending: Ending)
      requires Valid()
      modifies this
      ensures Valid() && View() == Next(old(View()), Op.Cancel(id, ending))
      ensures id in tasks ==> Settled(StatusOf(View(), id))
      ensures !Waits(old(View()), id) ==> View() == old(View())
      ensures forall x :: x != id ==> SameChild(old(View()), View(), x)
    {
      if id !in tasks || tasks[id].Over? {
        return;
      }
      tasks := tasks[id := Over(ending)];
    }

    /** Any operation, by whichever method performs it. */
    method Perform(op: Op)
      requires Valid() && Possible(View(), op)
      modifies this
      ensures Valid() && View() == Next(old(View()), op)
    {
      match op {
        case SpawnBlocking(id, ending) => var spawned := SpawnBlocking(id, ending);
        case SpawnDetached(id) => SpawnDetached(id);
        case TaskFinishes(id, ending) => Finish(id, ending);
        case Join(id, timeout, w) => var answer := Join(id, timeout, w);
        case Cancel(id, ending) => Cancel(id, ending);
      }
    }
  }

  // ---- runs ---------------------------------------------------------------------------------------

  ghost predicate IsRun(books: seq<Book>, ops: seq<Op>) {
    && |books| == |ops| + 1
    && books[0] == EMPTY
    && forall k :: 0 <= k < |ops| ==> Possible(books[k], ops[k]) && books[k + 1] == Next(books[k], ops[k])
  }

  lemma {:induction false} ResultsHold(books: seq<Book>, ops: seq<Op>, k: nat)
    requires IsRun(books, ops) && k < |books|
    ensures ResultsFit(books[k])
  {
    if k > 0 {
      ResultsHold(books, ops, k - 1);
    }
  }

  lemma StepKeepsSettled(b: Book, op: Op, id: Id)
    requires ResultsFit(b) && Possible(b, op) && Settled(StatusOf(b, id))
    ensures StatusOf(Next(b, op), id) == StatusOf(b, id)
    ensures ResultOf(b, id).Some? ==> ResultOf(Next(b, op), id) == ResultOf(b, id)
  {
  }

  /** SUCCEEDED, FAILED and CANCELLED are for good, whatever is spawned, joined or cancelled. */
  lemma {:induction false} StatusIsFinal(books: seq<Book>, ops: seq<Op>, j: nat, k: nat, id: Id)
    requires IsRun(books, ops) && j <= k < |books| && Settled(StatusOf(books[j], id))
    ensures StatusOf(books[k], id) == StatusOf(books[j], id)
    ensures ResultOf(books[j], id).Some? ==> ResultOf(books[k], id) == ResultOf(books[j], id)
  {
    if j < k {
      StatusIsFinal(books, ops, j, k - 1, id);
      ResultsHold(books, ops, k - 1);
      StepKeepsSettled(books[k - 1], ops[k - 1], id);
    }
  }

  /** A join that gives a result or a timeout, and a cancel of a known task, leave the child
      finished; a join that gives a result leaves it succeeded with that result. */
  lemma FinishedAfter(b: Book, op: Op)
    requires ResultsFit(b) && Possible(b, op)
    requires (op.Join? && (var a := JoinAnswer(b, op.id, op.timeout, op.w); a.Result? || a.ChildTimeout?))
          || (op.Cancel? && op.id in b.tasks)
    ensures Settled(StatusOf(Next(b, op), op.id))
    ensures op.Join? && JoinAnswer(b, op.id, op.timeout, op.w).Result? ==>
              && StatusOf(Next(b, op), op.id) == Some(Succeeded)
              && ResultOf(Next(b, op), op.id) == Some(JoinAnswer(b, op.id, op.timeout, op.w).result)
  {
  }

  /** A join cancelled by its caller leaves a shielded child running, an unshielded one finished. */
  lemma CancelledJoin(b: Book, id: Id, timeout: bool, ending: Ending)
    requires Waits(b, id)
    ensures StatusOf(Next(b, Op.Join(id, timeout, JoinerCancelled(ending))), id) == Some(RunningNow) <==> timeout
  {
  }

  /** All joins of one child that give a result give the same one, and none gives a result after
      the child was seen failed or cancelled. */
  lemma JoinsAgree(books: seq<Book>, ops: seq<Op>, j: nat, k: nat)
    requires IsRun(books, ops) && j <= k < |ops| && ops[k].Join?
    requires var a := JoinAnswer(books[k], ops[k].id, ops[k].timeout, ops[k].w); a.Result?
    ensures StatusOf(books[j], ops[k].id) != Some(Failed) && StatusOf(books[j], ops[k].id) != Some(Cancelled)
    ensures ops[j].Join? && ops[j].id == ops[k].id
            && JoinAnswer(books[j], ops[j].id, ops[j].timeout, ops[j].w).Result? ==>
              JoinAnswer(books[j], ops[j].id, ops[j].timeout, ops[j].w).result
              == JoinAnswer(books[k], ops[k].id, ops[k].timeout, ops[k].w).result
  {
    var id := ops[k].id;
    ResultsHold(books, ops, k);
    ResultsHold(books, ops, j);
    FinishedAfter(books[k], ops[k]);
    if Settled(StatusOf(books[j], id)) {
      StatusIsFinal(books, ops, j, k + 1, id);
    }
    if j < k && ops[j].Join? && ops[j].id == id && JoinAnswer(books[j], id, ops[j].timeout, ops[j].w).Result? {
      FinishedAfter(books[j], ops[j]);
      StatusIsFinal(books, ops, j + 1, k + 1, id);
    }
  }

  /** Each operation is possible when its turn comes. */
  predicate CanRun(b: Book, ops: seq<Op>)
    decreases |ops|
  {
    ops != [] ==> Possible(b, ops[0]) && CanRun(Next(b, ops[0]), ops[1..])
  }

  /** A new backend taken through any sequence of operations has gone through a run of the model; a child
      whose status was final after the first j operations has the same status and result at the end. */
  method RunBackend(ops: seq<Op>) returns (backend: InProcessBackend, ghost books: seq<Book>)
    requires CanRun(EMPTY, ops)
    ensures fresh(backend) && IsRun(books, ops) && backend.View() == books[|ops|]
    ensures forall j: nat, id: Id :: j <= |ops| && Settled(StatusOf(books[j], id)) ==>
              SameChild(books[j], backend.View(), id)
  {
    backend := new InProcessBackend();
    books := [EMPTY];
    ghost var left := ops;
    for k := 0 to |ops|
      invariant fresh(backend) && backend.Valid()
      invariant left == ops[k..] && CanRun(backend.View(), left)
      invariant |books| == k + 1 && books[k] == backend.View()
      invariant IsRun(books, ops[..k])
    {
      hide Next, Possible;
      assert left[0] == ops[k] && left[1..] == ops[k + 1..];
      backend.Perform(ops[k]);
      RunExtends(books, ops, k, backend.View());
      books := books + [backend.View()];
      left := left[1..];
    }
    TakeAll(ops);
    forall j: nat, id: Id | j <= |ops| && Settled(StatusOf(books[j], id))
      ensures SameChild(books[j], backend.View(), id)
    {
      StatusIsFinal(books, ops, j, |ops|, id);
    }
  }

  lemma RunExtends(books: seq<Book>, ops: seq<Op>, k: nat, b: Book)
    requires k < |ops| && |books| == k + 1 && IsRun(books, ops[..k])
    requires Possible(books[k], ops[k]) && b == Next(books[k], ops[k])
    ensures IsRun(books + [b], ops[..k + 1])
  {
    hide Next, Possible;
    var longer, done := books + [b], ops[..k + 1];
    forall i | 0 <= i < |done| ensures Possible(longer[i], done[i]) && longer[i + 1] == Next(longer[i], done[i]) {
      if i < k {
        assert done[i] == ops[..k][i];
      }
    }
  }
}
