/** The in-memory task store: an ordered sequence of tasks that the
    completing operation updates in place, one element at a time. */
module Store {
  import opened Wrappers
  import opened Tasks

  class TaskStore {
    /** The stored tasks, in insertion (seed) order. */
    var tasks: seq<Task>

    /** The store's invariant: identifiers are pairwise distinct. */
    ghost predicate Valid()
      reads this
    {
      UniqueIds(tasks)
    }

    /** A new store holds the three seed tasks. */
    constructor ()
      ensures tasks == SeedTasks()
      ensures Valid()
    {
      tasks := SeedTasks();
    }

    /** The whole sequence, as stored. */
    method List() returns (s: seq<Task>)
      ensures s == tasks
    {
      s := tasks;
    }

    /** Scans front to back for a task with identifier `id` and returns the
        first one met; reports None when the scan runs off the end. */
    method Get(id: int) returns (r: Option<Task>)
      ensures r == Lookup(tasks, id)
    {
      var i := 0;
      while i < |tasks|
        invariant 0 <= i <= |tasks|
        invariant forall j :: 0 <= j < i ==> tasks[j].id != id
      {
        if tasks[i].id == id {
          return Some(tasks[i]);
        }
        i := i + 1;
      }
      return None;
    }

    /** Scans front to back for a task with identifier `id`; at the first
        match sets that element's completed flag and returns the updated
        element. Reports None, and changes nothing, when no task matches. */
    method Complete(id: int) returns (r: Option<Task>)
      modifies this
      ensures tasks == MarkCompleted(old(tasks), id)
      ensures r == Lookup(tasks, id)
      ensures r.Some? <==> HasId(old(tasks), id)
      ensures r.Some? ==> r == Some(Lookup(old(tasks), id).value.(completed := true))
      ensures Valid() <==> old(Valid())
    {
      var i := 0;
      while i < |tasks|
        invariant 0 <= i <= |tasks|
        invariant tasks == old(tasks)
        invariant forall j :: 0 <= j < i ==> tasks[j].id != id
      {
        if tasks[i].id == id {
          tasks := tasks[i := tasks[i].(completed := true)];
          CompleteKeepsIds(old(tasks), id, id);
          return Some(tasks[i]);
        }
        i := i + 1;
      }
      return None;
    }
  }
}
