/** The task-management dashboard's own state: the board of tasks, the flag
    that retracts the left sidebar, and the project progress shown as a
    6-segment bar. */
module Dashboard {
  import opened Wrappers
  import opened SegmentBar
  import opened Kanban

  /** Below this window width the sidebar retracts. */
  const RetractBelowWidth: int := 1400

  /** Fill classes of the six progress segments, left to right. */
  const ProgressColors: seq<string> :=
    ["bg-yellow-200", "bg-yellow-300", "bg-lime-200", "bg-lime-300", "bg-lime-400", "bg-lime-500"]

  /** The project progress bar for a progress value: six segments, segment `i`
      in its own colour when `i < progress` and grey otherwise, rounded at both
      ends. */
  function ProgressBar(progress: int): (bar: seq<Segment>)
    ensures |bar| == 6
    ensures forall i :: 0 <= i < 6 ==>
      (i < progress ==> bar[i].background == ProgressColors[i]) &&
      (bar[i].background == EmptyBackground <==> !(i < progress))
    ensures forall i :: 0 <= i < 6 ==>
      (bar[i].corner == RoundedLeft <==> i == 0) && (bar[i].corner == RoundedRight <==> i == 5)
  {
    seq(6, i requires 0 <= i < 6 =>
      Segment(if i < progress then ProgressColors[i] else EmptyBackground, CornerAt(i, 5)))
  }

  /** The progress bar shows the progress clamped to [0, 6] coloured segments. */
  lemma ProgressFilledCount(progress: int)
    ensures CountFilled(ProgressBar(progress)) == Clamp(progress, 0, 6)
  {
    FilledBelowCount(ProgressBar(progress), progress);
  }

  class DashboardState {
    var isLeftDivRetracted: bool
    var tasks: Board
    var projectProgressBar: int

    /** The first render: the saved board when there is one, the seed board
        otherwise; sidebar shown; progress 5. */
    constructor (saved: Option<Board>, seed: Board)
      ensures tasks == saved.GetOr(seed)
      ensures !isLeftDivRetracted && projectProgressBar == 5
    {
      isLeftDivRetracted := false;
      tasks := saved.GetOr(seed);
      projectProgressBar := 5;
    }

    /** `moveTask`: the board becomes the moved board. */
    method MoveTask(id: string, currentContainer: Bucket, newContainer: Bucket)
      modifies this`tasks
      ensures tasks == Kanban.MoveTask(old(tasks), id, currentContainer, newContainer)
      ensures UniqueIds(old(tasks)) ==> UniqueIds(tasks) && AllTasks(tasks) == AllTasks(old(tasks))
      ensures CountId(old(tasks).Get(currentContainer), id) <= 1 ==> TotalCount(tasks) == TotalCount(old(tasks))
    {
      var before := tasks;
      tasks := Kanban.MoveTask(tasks, id, currentContainer, newContainer);
      if UniqueIds(before) {
        MovePreservesUniqueIds(before, id, currentContainer, newContainer);
        UniqueBoardMoveConservesTasks(before, id, currentContainer, newContainer);
      }
      if CountId(before.Get(currentContainer), id) <= 1 {
        MoveConservesTasks(before, id, currentContainer, newContainer);
      }
    }

    /** `toggleLeftDiv` */
    method ToggleLeftDiv()
      modifies this`isLeftDivRetracted
      ensures isLeftDivRetracted == !old(isLeftDivRetracted)
    {
      isLeftDivRetracted := !isLeftDivRetracted;
    }

    /** `handleResize`, given `window.innerWidth`. */
    method HandleResize(innerWidth: int)
      modifies this`isLeftDivRetracted
      ensures isLeftDivRetracted <==> innerWidth < RetractBelowWidth
    {
      if innerWidth < RetractBelowWidth {
        isLeftDivRetracted := true;
      } else {
        isLeftDivRetracted := false;
      }
    }

    /** The progress bar the dashboard draws. */
    function ProgressSegments(): (bar: seq<Segment>)
      reads this
      ensures CountFilled(bar) == Clamp(projectProgressBar, 0, 6)
    {
      ProgressFilledCount(projectProgressBar);
      ProgressBar(projectProgressBar)
    }
  }
}
