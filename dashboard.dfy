/** The dashboard page: the in-memory task list with its create, update,
    delete and toggle handlers, the signed-in user record, and the counts
    shown in the right-hand panel. Each handler replaces the list by a pure
    `map`, `filter` or spread over the previous list; those transitions are
    the functions below and the page is a class whose methods apply them. */
module Dashboard {
  import opened Common

  /** Task ids: the seeded tasks carry numbers, new tasks a random UUID
      string or, without `crypto.randomUUID`, the clock in milliseconds.
      Strict equality `===` on these is equality of values of this type. */
  datatype TaskId = NumId(n: int) | StrId(s: string)

  /** A task object. `id` and `completed` are always present; the other keys
      are present only if the create payload supplied them. */
  datatype Task = Task(
    id: TaskId,
    completed: bool,
    when: Option<string>,
    title: Option<string>,
    desc: Option<string>,
    priority: Option<string>)

  /** The keys an object spread `{ ...payload }` brings in; None is a key the
      payload does not have. */
  datatype TaskPatch = TaskPatch(
    id: Option<TaskId>,
    completed: Option<bool>,
    when: Option<string>,
    title: Option<string>,
    desc: Option<string>,
    priority: Option<string>)

  /** The counts handed to the right-hand panel. */
  datatype Stats = Stats(total: nat, inProgress: nat, open: nat, completed: nat)

  function Pick<T>(p: Option<T>, current: T): T {
    if p.Some? then p.value else current
  }

  /** `{ ...t, ...payload }`: every key the payload has wins. */
  function Merge(t: Task, p: TaskPatch): (r: Task)
    ensures r.id == Pick(p.id, t.id) && r.completed == Pick(p.completed, t.completed)
    ensures r.title == (if p.title.Some? then p.title else t.title)
    ensures r.desc == (if p.desc.Some? then p.desc else t.desc)
    ensures r.when == (if p.when.Some? then p.when else t.when)
    ensures r.priority == (if p.priority.Some? then p.priority else t.priority)
  {
    Task(Pick(p.id, t.id), Pick(p.completed, t.completed),
         if p.when.Some? then p.when else t.when,
         if p.title.Some? then p.title else t.title,
         if p.desc.Some? then p.desc else t.desc,
         if p.priority.Some? then p.priority else t.priority)
  }

  predicate HasId(tasks: seq<Task>, id: TaskId) {
    exists i :: 0 <= i < |tasks| && tasks[i].id == id
  }

  predicate UniqueIds(tasks: seq<Task>) {
    forall i, j :: 0 <= i < j < |tasks| ==> tasks[i].id != tasks[j].id
  }

  /** `handleCreateTask`: `[{ id, completed: false, ...payload }, ...prev]`. */
  function Created(prev: seq<Task>, newId: TaskId, p: TaskPatch): (r: seq<Task>)
    ensures |r| == |prev| + 1 && r[1..] == prev
    ensures r[0].id == Pick(p.id, newId)
    ensures r[0].completed == Pick(p.completed, false)
    ensures r[0].title == p.title && r[0].desc == p.desc
    ensures r[0].when == p.when && r[0].priority == p.priority
  {
    [Merge(Task(newId, false, None, None, None, None), p)] + prev
  }

  /** `handleUpdateTask`: `prev.map(t => t.id === id ? { ...t, ...payload } : t)`. */
  function Updated(prev: seq<Task>, id: TaskId, p: TaskPatch): (r: seq<Task>)
    ensures |r| == |prev|
    ensures forall i :: 0 <= i < |prev| && prev[i].id == id ==> r[i] == Merge(prev[i], p)
    ensures forall i :: 0 <= i < |prev| && prev[i].id != id ==> r[i] == prev[i]
  {
    if prev == [] then []
    else [if prev[0].id == id then Merge(prev[0], p) else prev[0]] + Updated(prev[1..], id, p)
  }

  /** `handleDeleteTask`: `prev.filter(t => t.id !== id)`, a hard delete. */
  function Deleted(prev: seq<Task>, id: TaskId): (r: seq<Task>)
    ensures |r| <= |prev|
  {
    if prev == [] then []
    else (if prev[0].id != id then [prev[0]] else []) + Deleted(prev[1..], id)
  }

  /** A task survives the delete exactly when it was in the list under
      another id: nothing else is dropped and no deleted copy is kept. */
  lemma {:induction false} DeletedMembers(prev: seq<Task>, id: TaskId)
    ensures forall t :: t in Deleted(prev, id) <==> t in prev && t.id != id
    ensures !HasId(Deleted(prev, id), id)
  {
    if prev != [] {
      DeletedMembers(prev[1..], id);
      assert prev == [prev[0]] + prev[1..];
    }
  }

  function Flip(t: Task): Task {
    t.(completed := !t.completed)
  }

  /** `handleToggleComplete`: `prev.map(t => t.id === id ? { ...t, completed: !t.completed } : t)`. */
  function Toggled(prev: seq<Task>, id: TaskId): (r: seq<Task>)
    ensures |r| == |prev|
    ensures forall i :: 0 <= i < |prev| && prev[i].id == id ==>
      r[i] == prev[i].(completed := !prev[i].completed)
    ensures forall i :: 0 <= i < |prev| && prev[i].id != id ==> r[i] == prev[i]
  {
    if prev == [] then []
    else [if prev[0].id == id then Flip(prev[0]) else prev[0]] + Toggled(prev[1..], id)
  }

  /** `tasks.filter(t => t.completed).length`. */
  function CountCompleted(tasks: seq<Task>): nat {
    if tasks == [] then 0 else (if tasks[0].completed then 1 else 0) + CountCompleted(tasks[1..])
  }

  /** `tasks.filter(t => !t.completed).length`. */
  function CountOpen(tasks: seq<Task>): nat {
    if tasks == [] then 0 else (if tasks[0].completed then 0 else 1) + CountOpen(tasks[1..])
  }

  /** Every task is either completed or open. */
  lemma {:induction false} CountsPartition(tasks: seq<Task>)
    ensures CountCompleted(tasks) + CountOpen(tasks) == |tasks|
  {
    if tasks != [] {
      CountsPartition(tasks[1..]);
    }
  }

  /** The `stats` object computed on every render: the counts partition
      the list, and `inProgress` is the same count as `open`. */
  function StatsOf(tasks: seq<Task>): (r: Stats)
    ensures r.total == |tasks| && r.completed + r.open == r.total
    ensures r.completed == CountCompleted(tasks) && r.open == CountOpen(tasks)
    ensures r.inProgress == r.open
  {
    CountsPartition(tasks);
    Stats(|tasks|, CountOpen(tasks), CountOpen(tasks), CountCompleted(tasks))
  }

  /** An update for an id no task has leaves the list as it was. */
  lemma {:induction false} UpdateUnknownId(prev: seq<Task>, id: TaskId, p: TaskPatch)
    requires !HasId(prev, id)
    ensures Updated(prev, id, p) == prev
  {
    if prev != [] {
      assert !HasId(prev[1..], id) by {
        forall i | 0 <= i < |prev[1..]| ensures prev[1..][i].id != id {
          assert prev[1..][i] == prev[i + 1];
        }
      }
      UpdateUnknownId(prev[1..], id, p);
    }
  }

  /** A delete for an id no task has leaves the list as it was. */
  lemma {:induction false} DeleteUnknownId(prev: seq<Task>, id: TaskId)
    requires !HasId(prev, id)
    ensures Deleted(prev, id) == prev
  {
    if prev != [] {
      assert prev[0].id != id;
      assert !HasId(prev[1..], id) by {
        forall i | 0 <= i < |prev[1..]| ensures prev[1..][i].id != id {
          assert prev[1..][i] == prev[i + 1];
        }
      }
      DeleteUnknownId(prev[1..], id);
      assert prev == [prev[0]] + prev[1..];
    }
  }

  /** Filtering keeps the order of what it keeps: deleting from a
      concatenation deletes from each part. */
  lemma {:induction false} DeleteKeepsOrder(a: seq<Task>, b: seq<Task>, id: TaskId)
    ensures Deleted(a + b, id) == Deleted(a, id) + Deleted(b, id)
  {
    if a != [] {
      var head := if a[0].id != id then [a[0]] else [];
      calc {
        Deleted(a + b, id);
      == { assert (a + b)[0] == a[0] && (a + b)[1..] == a[1..] + b; }
        head + Deleted(a[1..] + b, id);
      == { DeleteKeepsOrder(a[1..], b, id); }
        head + (Deleted(a[1..], id) + Deleted(b, id));
      ==
        (head + Deleted(a[1..], id)) + Deleted(b, id);
      }
    } else {
      assert a + b == b;
    }
  }

  /** Deleting the same id twice removes nothing more. */
  lemma DeleteIdempotent(prev: seq<Task>, id: TaskId)
    ensures Deleted(Deleted(prev, id), id) == Deleted(prev, id)
  {
    var once := Deleted(prev, id);
    DeletedMembers(prev, id);
    DeleteUnknownId(once, id);
  }

  /** Toggling the same id twice restores the list. */
  lemma {:induction false} ToggleTwice(prev: seq<Task>, id: TaskId)
    ensures Toggled(Toggled(prev, id), id) == prev
  {
    if prev != [] {
      ToggleTwice(prev[1..], id);
      assert Toggled(prev, id)[1..] == Toggled(prev[1..], id);
    }
  }

  /** Toggling a task that is the only one with its id moves it from open to
      completed or back, and changes no other count. */
  lemma {:induction false} ToggleStats(prev: seq<Task>, k: nat)
    requires k < |prev| && UniqueIds(prev)
    ensures CountCompleted(Toggled(prev, prev[k].id)) ==
      if prev[k].completed then CountCompleted(prev) - 1 else CountCompleted(prev) + 1
  {
    var id := prev[k].id;
    var r := Toggled(prev, id);
    assert r[1..] == Toggled(prev[1..], id);
    if k == 0 {
      assert !HasId(prev[1..], id) by {
        forall i | 0 <= i < |prev[1..]| ensures prev[1..][i].id != id {
          assert prev[1..][i] == prev[i + 1];
        }
      }
      ToggleUnknownId(prev[1..], id);
    } else {
      assert prev[0].id != id;
      assert prev[1..][k - 1] == prev[k];
      ToggleStats(prev[1..], k - 1);
    }
  }

  /** A toggle for an id no task has leaves the list as it was. */
  lemma {:induction false} ToggleUnknownId(prev: seq<Task>, id: TaskId)
    requires !HasId(prev, id)
    ensures Toggled(prev, id) == prev
  {
    if prev != [] {
      assert prev[0].id != id;
      assert !HasId(prev[1..], id) by {
        forall i | 0 <= i < |prev[1..]| ensures prev[1..][i].id != id {
          assert prev[1..][i] == prev[i + 1];
        }
      }
      ToggleUnknownId(prev[1..], id);
    }
  }

  /** A create with an id no task has, from a payload without an `id` key,
      keeps the ids unique. */
  lemma CreateKeepsIdsUnique(prev: seq<Task>, newId: TaskId, p: TaskPatch)
    requires UniqueIds(prev) && !HasId(prev, newId) && p.id.None?
    ensures UniqueIds(Created(prev, newId, p))
  {
    var r := Created(prev, newId, p);
    forall i, j | 0 <= i < j < |r| ensures r[i].id != r[j].id {
      assert r[j] == prev[j - 1];
      if i > 0 { assert r[i] == prev[i - 1]; }
    }
  }

  /** Updates without an `id` key, toggles and deletes keep ids unique. */
  lemma EditsKeepIdsUnique(prev: seq<Task>, id: TaskId, p: TaskPatch)
    requires UniqueIds(prev) && p.id.None?
    ensures UniqueIds(Updated(prev, id, p))
    ensures UniqueIds(Toggled(prev, id))
  {
  }

  /** The dashboard page's state: the signed-in user and the task list. */
  class DashboardPage {
    var user: UserInfo
    var tasks: seq<Task>

    /** The page starts from its seeded user and two seeded tasks. */
    constructor ()
      ensures user == UserInfo(1, "William Slatter", "william@example.com")
      ensures |tasks| == 2 && UniqueIds(tasks) && CountCompleted(tasks) == 0
      ensures tasks[0].id == NumId(1) && tasks[0].title == Some("Complete React Project")
      ensures tasks[1].id == NumId(2) && tasks[1].title == Some("Team Meeting")
    {
      user := UserInfo(1, "William Slatter", "william@example.com");
      tasks := [
        Task(NumId(1), false, Some("2025-08-31"), Some("Complete React Project"),
             Some("Finish the dashboard and task card components."), Some("high")),
        Task(NumId(2), false, Some("2025-09-01"), Some("Team Meeting"),
             Some("Discuss project updates and next steps."), Some("medium"))];
    }

    /** `handleCreateTask`; `newId` is what `crypto.randomUUID()` or
        `Date.now()` produced. */
    method HandleCreateTask(payload: TaskPatch, newId: TaskId)
      modifies this
      ensures tasks == Created(old(tasks), newId, payload) && user == old(user)
    {
      tasks := [Merge(Task(newId, false, None, None, None, None), payload)] + tasks;
    }

    method HandleUpdateTask(id: TaskId, payload: TaskPatch)
      modifies this
      ensures tasks == Updated(old(tasks), id, payload) && user == old(user)
    {
      tasks := Updated(tasks, id, payload);
    }

    method HandleDeleteTask(id: TaskId)
      modifies this
      ensures tasks == Deleted(old(tasks), id) && user == old(user)
    {
      tasks := Deleted(tasks, id);
    }

    method HandleToggleComplete(id: TaskId)
      modifies this
      ensures tasks == Toggled(old(tasks), id) && user == old(user)
    {
      tasks := Toggled(tasks, id);
    }

    /** `saveProfile`: `setUser(p => ({ ...p, name, email }))`; the id stays. */
    method SaveProfile(name: string, email: string)
      modifies this
      ensures user == UserInfo(old(user).id, name, email) && tasks == old(tasks)
    {
      user := user.(name := name, email := email);
    }

    /** The counts of the current list. */
    method CurrentStats() returns (s: Stats)
      ensures s.total == |tasks| && s.completed + s.open == s.total
      ensures s.inProgress == s.open && s.completed == CountCompleted(tasks)
    {
      s := StatsOf(tasks);
    }
  }
}
