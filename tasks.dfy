/** Tasks and the value-level meaning of the store's operations.

    The store keeps an ordered sequence of tasks. The functions here are the
    reference definitions that the store's imperative methods are proved
    against: the first index holding an identifier, the task found there, and
    the sequence after that task is marked complete. */
module Tasks {
  import opened Wrappers

  /** A todo item: identifier, title and completion flag. */
  datatype Task = Task(id: int, title: string, completed: bool)

  /** No two positions of the sequence hold the same identifier. */
  predicate UniqueIds(s: seq<Task>)
  {
    forall i, j :: 0 <= i < j < |s| ==> s[i].id != s[j].id
  }

  /** Some position of the sequence holds identifier `id`. */
  predicate HasId(s: seq<Task>, id: int)
  {
    exists j :: 0 <= j < |s| && s[j].id == id
  }

  /** The three tasks a new store starts with, in this order. */
  function SeedTasks(): seq<Task>
  {
    [ Task(1, "Learn Go basics", false),
      Task(2, "Write some code", false),
      Task(3, "Build something cool", false) ]
  }

  /** The seed: exactly three tasks with identifiers 1, 2, 3 in that order,
      the three titles, none completed, identifiers pairwise distinct. */
  lemma SeedState()
    ensures |SeedTasks()| == 3
    ensures SeedTasks()[0] == Task(1, "Learn Go basics", false)
    ensures SeedTasks()[1] == Task(2, "Write some code", false)
    ensures SeedTasks()[2] == Task(3, "Build something cool", false)
    ensures forall j :: 0 <= j < |SeedTasks()| ==> !SeedTasks()[j].completed
    ensures UniqueIds(SeedTasks())
  {
  }

  /** The first position holding identifier `id`, if any: what a front-to-back
      scan that stops at the first match finds. */
  function IndexOf(s: seq<Task>, id: int): (r: Option<nat>)
    ensures r.Some? ==> r.value < |s| && s[r.value].id == id
    ensures r.Some? ==> forall j :: 0 <= j < r.value ==> s[j].id != id
    ensures r.None? <==> !HasId(s, id)
    decreases |s|
  {
    if |s| == 0 then None
    else if s[0].id == id then Some(0)
    else
      match IndexOf(s[1..], id)
      case None => None
      case Some(k) => Some(k + 1)
  }

  /** The task a lookup of `id` reports: the first element with that
      identifier, or None when there is none. */
  function Lookup(s: seq<Task>, id: int): (r: Option<Task>)
    ensures r.Some? <==> HasId(s, id)
    ensures r.Some? ==> r.value.id == id && r.value in s
    ensures r.Some? ==> exists j :: 0 <= j < |s| && s[j] == r.value && forall k :: 0 <= k < j ==> s[k].id != id
  {
    match IndexOf(s, id)
    case None => None
    case Some(i) => Some(s[i])
  }

  /** With distinct identifiers the first match is the only one: a lookup of
      `id` yields `t` exactly when `t` is stored and carries `id`. */
  lemma LookupUnique(s: seq<Task>, id: int, t: Task)
    requires UniqueIds(s)
    ensures Lookup(s, id) == Some(t) <==> t in s && t.id == id
  {
    if t in s && t.id == id {
      var m :| 0 <= m < |s| && s[m] == t;
      assert IndexOf(s, id) == Some(m);
    }
  }

  /** The sequence after marking the first task with identifier `id`
      complete; unchanged when no task has that identifier. */
  function MarkCompleted(s: seq<Task>, id: int): (r: seq<Task>)
    ensures |r| == |s|
    ensures forall j :: 0 <= j < |s| ==> r[j].id == s[j].id && r[j].title == s[j].title
    ensures !HasId(s, id) ==> r == s
    ensures HasId(s, id) ==> r[IndexOf(s, id).value].completed
    ensures forall j :: 0 <= j < |s| && Some(j) != IndexOf(s, id) ==> r[j] == s[j]
  {
    match IndexOf(s, id)
    case None => s
    case Some(i) => s[i := s[i].(completed := true)]
  }

  /** Two sequences with the same identifiers at the same positions have
      their first match for every identifier at the same position. */
  lemma {:induction false} IndexOfSameIds(s: seq<Task>, t: seq<Task>, id: int)
    requires |s| == |t|
    requires forall j :: 0 <= j < |s| ==> s[j].id == t[j].id
    ensures IndexOf(s, id) == IndexOf(t, id)
    decreases |s|
  {
    if |s| > 0 && s[0].id != id {
      IndexOfSameIds(s[1..], t[1..], id);
    }
  }

  /** Completing keeps every identifier where it was, so it preserves the
      unique-identifier invariant and where every later scan stops. */
  lemma CompleteKeepsIds(s: seq<Task>, id: int, other: int)
    ensures UniqueIds(MarkCompleted(s, id)) <==> UniqueIds(s)
    ensures IndexOf(MarkCompleted(s, id), other) == IndexOf(s, other)
  {
    var r := MarkCompleted(s, id);
    IndexOfSameIds(r, s, other);
    if UniqueIds(s) {
      forall i, j | 0 <= i < j < |r| ensures r[i].id != r[j].id {
        assert r[i].id == s[i].id && r[j].id == s[j].id;
      }
    }
    if UniqueIds(r) {
      forall i, j | 0 <= i < j < |s| ensures s[i].id != s[j].id {
        assert r[i].id == s[i].id && r[j].id == s[j].id;
      }
    }
  }

  /** What completing reports: the found task with its flag set and its
      identifier and title kept; nothing when the identifier is absent. */
  lemma LookupAfterComplete(s: seq<Task>, id: int)
    ensures Lookup(s, id).None? ==> Lookup(MarkCompleted(s, id), id).None?
    ensures Lookup(s, id).Some? ==>
      Lookup(MarkCompleted(s, id), id) == Some(Lookup(s, id).value.(completed := true))
  {
    CompleteKeepsIds(s, id, id);
  }

  /** Completing one identifier leaves what a lookup of any other identifier
      reports unchanged. */
  lemma LookupOtherAfterComplete(s: seq<Task>, id: int, other: int)
    requires other != id
    ensures Lookup(MarkCompleted(s, id), other) == Lookup(s, other)
  {
    CompleteKeepsIds(s, id, other);
    var r := MarkCompleted(s, id);
    match IndexOf(s, other)
    case None =>
    case Some(k) =>
      assert s[k].id == other;
  }

  /** Completing the same identifier twice gives the same sequence, and so
      the same reported task, as completing it once. */
  lemma CompleteIdempotent(s: seq<Task>, id: int)
    ensures MarkCompleted(MarkCompleted(s, id), id) == MarkCompleted(s, id)
    ensures Lookup(MarkCompleted(MarkCompleted(s, id), id), id) == Lookup(MarkCompleted(s, id), id)
  {
    var once := MarkCompleted(s, id);
    CompleteKeepsIds(s, id, id);
    var twice := MarkCompleted(once, id);
    assert twice == once by {
      if IndexOf(s, id).Some? {
        var i := IndexOf(s, id).value;
        assert once[i] == s[i].(completed := true);
        assert twice == once[i := once[i].(completed := true)];
      }
    }
  }

  /** Completing two identifiers one after the other gives the same
      sequence in either order: no completion undoes another. */
  lemma CompleteCommutes(s: seq<Task>, a: int, b: int)
    ensures MarkCompleted(MarkCompleted(s, a), b) == MarkCompleted(MarkCompleted(s, b), a)
  {
    if a == b {
    } else {
      CompleteKeepsIds(s, a, b);
      CompleteKeepsIds(s, b, a);
      var ab := MarkCompleted(MarkCompleted(s, a), b);
      var ba := MarkCompleted(MarkCompleted(s, b), a);
      assert |ab| == |ba|;
      forall j | 0 <= j < |s| ensures ab[j] == ba[j] {
        assert IndexOf(s, a) != Some(j) || IndexOf(s, b) != Some(j);
      }
    }
  }
}
