/** The kanban board of the task-management dashboard and its one change,
    moving a task by id from one bucket to another. The move builds a new board
    and leaves the old one untouched, so it is a function here. */
module Kanban {
  import opened Wrappers
  import TaskCard

  /** The three buckets of the board. */
  datatype Bucket = Todo | InProgress | Completed

  /** A task as the board stores it: the properties its card shows, and the id
      moves refer to it by. */
  datatype Task = Task(
    id: string,
    name: string,
    labels: seq<string>,
    attachments: int,
    members: seq<TaskCard.Member>,
    date: TaskCard.DueDate,
    checklist: int)

  /** The board: one ordered sequence of tasks per bucket. */
  datatype Board = Board(todo: seq<Task>, inProgress: seq<Task>, completed: seq<Task>) {

    /** `board[bucket]` */
    function Get(bucket: Bucket): seq<Task>
    {
      match bucket
      case Todo => todo
      case InProgress => inProgress
      case Completed => completed
    }

    /** `{ ...board, [bucket]: tasks }` */
    function Put(bucket: Bucket, tasks: seq<Task>): (r: Board)
      ensures r.Get(bucket) == tasks
      ensures forall other :: other != bucket ==> r.Get(other) == Get(other)
    {
      match bucket
      case Todo => this.(todo := tasks)
      case InProgress => this.(inProgress := tasks)
      case Completed => this.(completed := tasks)
    }
  }

  /** The bucket that is neither `a` nor `b`. */
  function Third(a: Bucket, b: Bucket): (c: Bucket)
    requires a != b
    ensures c != a && c != b
  {
    if a != Todo && b != Todo then Todo
    else if a != InProgress && b != InProgress then InProgress
    else Completed
  }

  /** Number of tasks in `tasks` whose id is `id`. */
  function CountId(tasks: seq<Task>, id: string): nat
  {
    if tasks == [] then 0 else (if tasks[0].id == id then 1 else 0) + CountId(tasks[1..], id)
  }

  /** `tasks[i]` is the first task of `tasks` whose id is `id`. */
  predicate FirstWithId(tasks: seq<Task>, id: string, i: int)
  {
    0 <= i < |tasks| && tasks[i].id == id && forall j :: 0 <= j < i ==> tasks[j].id != id
  }

  /** `tasks.find(task => task.id === id)`: the first task with that id. */
  function Find(tasks: seq<Task>, id: string): (r: Option<Task>)
    ensures r.None? <==> CountId(tasks, id) == 0
    ensures r.Some? ==> exists i :: FirstWithId(tasks, id, i) && tasks[i] == r.value
  {
    if tasks == [] then None
    else if tasks[0].id == id then Some(tasks[0])
    else
      var r := Find(tasks[1..], id);
      if r.Some? then
        var i :| FirstWithId(tasks[1..], id, i) && tasks[1..][i] == r.value;
        assert forall j :: 0 < j <= i ==> tasks[j] == tasks[1..][j - 1];
        assert FirstWithId(tasks, id, i + 1) && tasks[i + 1] == r.value;
        r
      else r
  }

  /** `tasks.filter(task => task.id !== id)` */
  function RemoveId(tasks: seq<Task>, id: string): (r: seq<Task>)
    ensures forall t :: t in r <==> t in tasks && t.id != id
    ensures |r| == |tasks| - CountId(tasks, id)
    ensures CountId(r, id) == 0
  {
    if tasks == [] then []
    else
      var rest := RemoveId(tasks[1..], id);
      assert tasks == [tasks[0]] + tasks[1..];
      if tasks[0].id == id then rest else [tasks[0]] + rest
  }

  /** Removing an id from a concatenation removes it from each part in place:
      the tasks that stay keep their relative order. */
  lemma {:induction false} RemoveIdAppend(a: seq<Task>, b: seq<Task>, id: string)
    ensures RemoveId(a + b, id) == RemoveId(a, id) + RemoveId(b, id)
  {
    if a == [] {
      assert a + b == b;
    } else {
      assert (a + b)[0] == a[0];
      assert (a + b)[1..] == a[1..] + b;
      RemoveIdAppend(a[1..], b, id);
    }
  }

  /** Removing an id that does not occur changes nothing. */
  lemma {:induction false} RemoveAbsentId(tasks: seq<Task>, id: string)
    requires CountId(tasks, id) == 0
    ensures RemoveId(tasks, id) == tasks
  {
    if tasks != [] {
      RemoveAbsentId(tasks[1..], id);
      assert tasks == [tasks[0]] + tasks[1..];
    }
  }

  /** Counting splits over a concatenation. */
  lemma {:induction false} CountIdAppend(a: seq<Task>, b: seq<Task>, id: string)
    ensures CountId(a + b, id) == CountId(a, id) + CountId(b, id)
  {
    if a == [] {
      assert a + b == b;
    } else {
      assert (a + b)[0] == a[0];
      assert (a + b)[1..] == a[1..] + b;
      CountIdAppend(a[1..], b, id);
    }
  }

  /** Removing one id leaves the count of every other id as it was. */
  lemma {:induction false} RemoveIdKeepsOtherCounts(tasks: seq<Task>, id: string, other: string)
    requires other != id
    ensures CountId(RemoveId(tasks, id), other) == CountId(tasks, other)
  {
    if tasks != [] {
      RemoveIdKeepsOtherCounts(tasks[1..], id, other);
      var rest := RemoveId(tasks[1..], id);
      if tasks[0].id != id {
        assert ([tasks[0]] + rest)[1..] == rest;
      }
    }
  }

  /** When the id occurs once, removing it takes away exactly the task `find`
      returns and nothing else. */
  lemma {:induction false} RemoveUniqueId(tasks: seq<Task>, id: string)
    requires CountId(tasks, id) == 1
    ensures Find(tasks, id).Some?
    ensures multiset(RemoveId(tasks, id)) + multiset{Find(tasks, id).value} == multiset(tasks)
  {
    assert tasks == [tasks[0]] + tasks[1..];
    if tasks[0].id == id {
      RemoveAbsentId(tasks[1..], id);
    } else {
      RemoveUniqueId(tasks[1..], id);
    }
  }

  /** The board as `moveTask` leaves it: unchanged when `currentContainer`
      holds no task with `id` or when the two buckets are the same; otherwise
      every task with `id` leaves the current bucket and the first of them is
      appended to the new one. */
  function MoveTask(board: Board, id: string, currentContainer: Bucket, newContainer: Bucket): (r: Board)
    ensures CountId(board.Get(currentContainer), id) == 0 ==> r == board
    ensures currentContainer == newContainer ==> r == board
    ensures CountId(board.Get(currentContainer), id) > 0 && currentContainer != newContainer ==>
      var moved := Find(board.Get(currentContainer), id).value;
      && moved.id == id && moved in board.Get(currentContainer)
      && CountId(r.Get(currentContainer), id) == 0
      && (forall t :: t in r.Get(currentContainer) <==> t in board.Get(currentContainer) && t.id != id)
      && r.Get(newContainer) == board.Get(newContainer) + [moved]
      && r.Get(Third(currentContainer, newContainer)) == board.Get(Third(currentContainer, newContainer))
  {
    match Find(board.Get(currentContainer), id)
    case None => board
    case Some(taskToMove) =>
      if currentContainer == newContainer then board
      else
        var updatedFromTasks := RemoveId(board.Get(currentContainer), id);
        var updatedToTasks := board.Get(newContainer) + [taskToMove];
        board.Put(currentContainer, updatedFromTasks).Put(newContainer, updatedToTasks)
  }

  /** One step of the filter. */
  lemma RemoveIdCons(x: Task, rest: seq<Task>, id: string)
    ensures RemoveId([x] + rest, id) == if x.id == id then RemoveId(rest, id) else [x] + RemoveId(rest, id)
  {
    assert ([x] + rest)[0] == x && ([x] + rest)[1..] == rest;
  }

  /** A non-empty `a + b` is its first task followed by the rest of `a` and `b`. */
  lemma ConsAppend(a: seq<Task>, b: seq<Task>)
    requires a != []
    ensures a + b == [a[0]] + (a[1..] + b)
  {
    assert a == [a[0]] + a[1..];
  }

  /** Filtering out an id that occurs once, as `t` in `a + [t] + b`, leaves
      `a + b`. */
  lemma {:induction false} RemoveSingleId(a: seq<Task>, t: Task, b: seq<Task>, id: string)
    requires t.id == id && CountId(a, id) == 0 && CountId(b, id) == 0
    ensures RemoveId(a + [t] + b, id) == a + b
  {
    if a == [] {
      assert a + [t] + b == [t] + b;
      RemoveIdCons(t, b, id);
      RemoveAbsentId(b, id);
    } else {
      var rest := a[1..] + [t] + b;
      assert a + [t] + b == [a[0]] + rest;
      assert a[0].id != id;
      RemoveIdCons(a[0], rest, id);
      RemoveSingleId(a[1..], t, b, id);
      calc {
        RemoveId(a + [t] + b, id);
        RemoveId([a[0]] + rest, id);
        [a[0]] + (a[1..] + b);
        { ConsAppend(a, b); }
        a + b;
      }
    }
  }

  /** `find` returns `t` from `a + [t] + b` when no task of `a` has its id. */
  lemma {:induction false} FindAfterAbsent(a: seq<Task>, t: Task, b: seq<Task>, id: string)
    requires t.id == id && CountId(a, id) == 0
    ensures Find(a + [t] + b, id) == Some(t)
  {
    if a == [] {
      assert (a + [t] + b)[0] == t;
    } else {
      FindAfterAbsent(a[1..], t, b, id);
      assert (a + [t] + b)[1..] == a[1..] + [t] + b;
    }
  }

  /** Moving the only task with `id` out of a bucket `a + [t] + b` leaves
      `a + b` there, the other tasks in their order, and appends `t` itself
      to the new bucket. */
  lemma MoveKeepsSourceOrder(board: Board, id: string, currentContainer: Bucket, newContainer: Bucket,
                             a: seq<Task>, t: Task, b: seq<Task>)
    requires currentContainer != newContainer
    requires board.Get(currentContainer) == a + [t] + b
    requires t.id == id && CountId(a, id) == 0 && CountId(b, id) == 0
    ensures MoveTask(board, id, currentContainer, newContainer).Get(currentContainer) == a + b
    ensures MoveTask(board, id, currentContainer, newContainer).Get(newContainer) == board.Get(newContainer) + [t]
  {
    RemoveSingleId(a, t, b, id);
    FindAfterAbsent(a, t, b, id);
  }

  /** The number of tasks on the board. */
  function TotalCount(board: Board): nat
  {
    |board.todo| + |board.inProgress| + |board.completed|
  }

  /** The tasks of the board, as a multiset. */
  function AllTasks(board: Board): multiset<Task>
  {
    multiset(board.todo) + multiset(board.inProgress) + multiset(board.completed)
  }

  /** Occurrences of `id` over the whole board. */
  function BoardCountId(board: Board, id: string): nat
  {
    CountId(board.todo, id) + CountId(board.inProgress, id) + CountId(board.completed, id)
  }

  /** No id occurs twice on the board. */
  ghost predicate UniqueIds(board: Board)
  {
    forall id :: BoardCountId(board, id) <= 1
  }

  /** Any board-wide sum can be taken bucket by bucket in the order current,
      new, third. */
  lemma BucketSums(board: Board, a: Bucket, b: Bucket, id: string)
    requires a != b
    ensures TotalCount(board) == |board.Get(a)| + |board.Get(b)| + |board.Get(Third(a, b))|
    ensures AllTasks(board) == multiset(board.Get(a)) + multiset(board.Get(b)) + multiset(board.Get(Third(a, b)))
    ensures BoardCountId(board, id) == CountId(board.Get(a), id) + CountId(board.Get(b), id) + CountId(board.Get(Third(a, b)), id)
  {
  }

  /** How a move changes the count of each id on the board: the moved id's
      count becomes its old count minus its count in the current bucket, plus
      one (exactly once when ids are unique, see `MovePreservesUniqueIds`);
      every other id keeps its count. */
  lemma MoveCountsPerId(board: Board, id: string, currentContainer: Bucket, newContainer: Bucket, other: string)
    requires CountId(board.Get(currentContainer), id) > 0 && currentContainer != newContainer
    ensures var r := MoveTask(board, id, currentContainer, newContainer);
      BoardCountId(r, other) ==
        if other == id then BoardCountId(board, id) - CountId(board.Get(currentContainer), id) + 1
        else BoardCountId(board, other)
  {
    var r := MoveTask(board, id, currentContainer, newContainer);
    var moved := Find(board.Get(currentContainer), id).value;
    BucketSums(board, currentContainer, newContainer, other);
    BucketSums(r, currentContainer, newContainer, other);
    CountIdAppend(board.Get(newContainer), [moved], other);
    assert CountId([moved], other) == if moved.id == other then 1 else 0;
    if other != id {
      RemoveIdKeepsOtherCounts(board.Get(currentContainer), id, other);
    }
  }

  /** A move keeps every id unique on a board whose ids are unique. */
  lemma MovePreservesUniqueIds(board: Board, id: string, currentContainer: Bucket, newContainer: Bucket)
    requires UniqueIds(board)
    ensures UniqueIds(MoveTask(board, id, currentContainer, newContainer))
  {
    var r := MoveTask(board, id, currentContainer, newContainer);
    if CountId(board.Get(currentContainer), id) > 0 && currentContainer != newContainer {
      forall other ensures BoardCountId(r, other) <= 1 {
        MoveCountsPerId(board, id, currentContainer, newContainer, other);
        assert BoardCountId(board, other) <= 1;
      }
    }
  }

  /** When the id occurs at most once in the current bucket, a move neither
      drops nor duplicates a task: the board holds the same tasks, so the same
      number of them. */
  lemma MoveConservesTasks(board: Board, id: string, currentContainer: Bucket, newContainer: Bucket)
    requires CountId(board.Get(currentContainer), id) <= 1
    ensures AllTasks(MoveTask(board, id, currentContainer, newContainer)) == AllTasks(board)
    ensures TotalCount(MoveTask(board, id, currentContainer, newContainer)) == TotalCount(board)
  {
    var r := MoveTask(board, id, currentContainer, newContainer);
    if CountId(board.Get(currentContainer), id) == 1 && currentContainer != newContainer {
      var source, target := board.Get(currentContainer), board.Get(newContainer);
      var rest := multiset(board.Get(Third(currentContainer, newContainer)));
      var moved := Find(source, id).value;
      MovedBuckets(board, id, currentContainer, newContainer);
      RemoveUniqueId(source, id);
      BucketSums(board, currentContainer, newContainer, id);
      BucketSums(r, currentContainer, newContainer, id);
      calc {
        AllTasks(r);
        multiset(RemoveId(source, id)) + multiset(target + [moved]) + rest;
        { assert multiset(target + [moved]) == multiset(target) + multiset{moved}; }
        (multiset(RemoveId(source, id)) + multiset{moved}) + multiset(target) + rest;
        multiset(source) + multiset(target) + rest;
        AllTasks(board);
      }
    }
    TotalIsSize(board);
    TotalIsSize(r);
  }

  /** The number of tasks is the size of the board's multiset of tasks. */
  lemma TotalIsSize(board: Board)
    ensures TotalCount(board) == |AllTasks(board)|
  {
  }

  /** The buckets after a real move, spelled out. */
  lemma MovedBuckets(board: Board, id: string, currentContainer: Bucket, newContainer: Bucket)
    requires CountId(board.Get(currentContainer), id) > 0 && currentContainer != newContainer
    ensures var r := MoveTask(board, id, currentContainer, newContainer);
      && r.Get(currentContainer) == RemoveId(board.Get(currentContainer), id)
      && r.Get(newContainer) == board.Get(newContainer) + [Find(board.Get(currentContainer), id).value]
      && r.Get(Third(currentContainer, newContainer)) == board.Get(Third(currentContainer, newContainer))
  {
  }

  /** On a board with unique ids every move conserves its tasks. */
  lemma UniqueBoardMoveConservesTasks(board: Board, id: string, currentContainer: Bucket, newContainer: Bucket)
    requires UniqueIds(board)
    ensures AllTasks(MoveTask(board, id, currentContainer, newContainer)) == AllTasks(board)
  {
    assert BoardCountId(board, id) <= 1;
    BucketSums(board, Todo, InProgress, id);
    MoveConservesTasks(board, id, currentContainer, newContainer);
  }

  /** With the id twice or more in the current bucket a move loses tasks: every
      copy leaves and only one arrives. */
  lemma MoveDropsDuplicates(board: Board, id: string, currentContainer: Bucket, newContainer: Bucket)
    requires CountId(board.Get(currentContainer), id) >= 2 && currentContainer != newContainer
    ensures TotalCount(MoveTask(board, id, currentContainer, newContainer))
      == TotalCount(board) - CountId(board.Get(currentContainer), id) + 1
    ensures TotalCount(MoveTask(board, id, currentContainer, newContainer)) < TotalCount(board)
  {
    var r := MoveTask(board, id, currentContainer, newContainer);
    BucketSums(board, currentContainer, newContainer, id);
    BucketSums(r, currentContainer, newContainer, id);
  }
}
