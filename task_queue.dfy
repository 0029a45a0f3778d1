/**
 * The shared task queue (src/taskQueue.cc). Tasks are appended at the back;
 * `GetTask` scans from the front and takes out the first task whose counter
 * has reached zero. The queue's mutex is not modelled: operations are
 * sequential.
 */
module TaskQueues {
  import opened Tasks

  class TaskQueue {
    var queue: seq<Task>

    /** An empty queue. */
    constructor ()
      ensures queue == []
    {
      queue := [];
    }

    /**
     * Removes and returns the lowest-index task with no dependencies left;
     * the others keep their order. When no task qualifies (in particular when
     * the queue is empty) it returns null and changes nothing.
     */
    method GetTask() returns (task: Task?)
      modifies this
      ensures var k := old(FirstReady(Counters(queue)));
        if k == |old(queue)| then task == null && queue == old(queue)
        else task == old(queue)[k] && queue == RemoveAt(old(queue), k)
      ensures task != null ==> old(!task.HasDependenciesLeft())
      ensures task == null <==> old(forall i | 0 <= i < |queue| :: queue[i].HasDependenciesLeft())
    {
      task := null;
      // The early return for an empty queue answers what a scan of no tasks does.
      ghost var counters := Counters(queue);
      var i := 0;
      while i < |queue|
        invariant 0 <= i <= |queue|
        invariant forall j | 0 <= j < i :: counters[j] > 0
      {
        if !queue[i].HasDependenciesLeft() {
          break;
        }
        i := i + 1;
      }
      FirstReadyAt(counters, i);
      if i < |queue| {
        task := queue[i];
        queue := RemoveAt(queue, i);
      }
    }

    /** Appends `newTask` at the back. */
    method AddTask(newTask: Task)
      modifies this
      ensures queue == old(queue) + [newTask]
    {
      queue := queue + [newTask];
    }

    method GetTaskCount() returns (n: nat)
      ensures n == |queue|
    {
      n := |queue|;
    }
  }
}
