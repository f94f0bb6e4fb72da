/**
 * The build's task runner. A task applies its work to its argument; a
 * collection holds tasks and is either concurrent or sequential; the runner
 * executes its collections in order, announcing every task with a running
 * number before submitting it.
 *
 * Work is modelled as a function from the argument to the error it raises
 * (None when it completes). Threads are not modelled: a concurrent
 * collection is described by its deterministic outcome, in which every task
 * is submitted and runs and the error reported is that of the
 * earliest-submitted failing task.
 */
module Tasks {
  import opened Wrappers
  import opened SeqUtil

  datatype Task<!A> = Task(work: Option<A -> Option<string>>, arg: A, description: Option<string>, condition: A -> bool)
  {
    /** Task.execute: the work is applied to the argument only when there is work. */
    function Execute(): (err: Option<string>)
      ensures work.None? ==> err.None?
    {
      if work.Some? then work.value(arg) else None
    }

    /** The condition is evaluated on the task's own argument. */
    predicate IsConditionMet() {
      condition(arg)
    }
  }

  /** A task with the default condition, which accepts every argument. */
  function NewTask<A>(work: Option<A -> Option<string>>, arg: A, description: Option<string>): (t: Task<A>)
    ensures t.IsConditionMet()
    ensures t.work == work && t.arg == arg && t.description == description
  {
    Task(work, arg, description, _ => true)
  }

  /** The tasks of `ts` that are listed: all of them, or those whose condition holds. */
  function Eligible<A>(ts: seq<Task<A>>, all: bool): (r: seq<Task<A>>)
    ensures |r| <= |ts|
    ensures all ==> r == ts
    ensures forall i | 0 <= i < |r| :: all || r[i].IsConditionMet()
    decreases |ts|
  {
    if |ts| == 0 then []
    else
      var r := Eligible(ts[..|ts| - 1], all);
      var t := ts[|ts| - 1];
      if all || t.IsConditionMet() then r + [t] else r
  }

  /** How many tasks of `ts` meet their condition. */
  function CountMet<A>(ts: seq<Task<A>>): nat
    decreases |ts|
  {
    if |ts| == 0 then 0
    else CountMet(ts[..|ts| - 1]) + (if ts[|ts| - 1].IsConditionMet() then 1 else 0)
  }

  /** Filtering distributes over concatenation, so order is kept and nothing is reordered. */
  lemma {:induction false} EligibleAppend<A>(a: seq<Task<A>>, b: seq<Task<A>>, all: bool)
    ensures Eligible(a + b, all) == Eligible(a, all) + Eligible(b, all)
    decreases |b|
  {
    if |b| == 0 {
      assert a + b == a;
    } else {
      var b' := b[..|b| - 1];
      assert (a + b)[..|a + b| - 1] == a + b';
      assert (a + b)[|a + b| - 1] == b[|b| - 1];
      EligibleAppend(a, b', all);
    }
  }

  /** The condition-filtered list has exactly one entry per task whose condition holds. */
  lemma {:induction false} EligibleCount<A>(ts: seq<Task<A>>)
    ensures |Eligible(ts, false)| == CountMet(ts)
    decreases |ts|
  {
    if |ts| > 0 {
      EligibleCount(ts[..|ts| - 1]);
    }
  }

  class TaskCollection<A> {
    const concurrent: bool
    var tasks: seq<Task<A>>

    constructor(concurrent: bool)
      ensures this.concurrent == concurrent && tasks == []
    {
      this.concurrent := concurrent;
      tasks := [];
    }

    /** add_task: the tasks are appended in the order given. */
    method AddTask(ts: seq<Task<A>>)
      modifies this
      ensures tasks == old(tasks) + ts
    {
      tasks := tasks + ts;
    }

    /** get_tasks: the listed tasks, in insertion order. */
    function GetTasks(all: bool): (r: seq<Task<A>>)
      reads this
      ensures all ==> r == tasks
    {
      Eligible(tasks, all)
    }

    /** get_count: the number of listed tasks; without `all`, the number whose condition holds. */
    function GetCount(all: bool): (n: nat)
      reads this
      ensures n <= |tasks|
      ensures all ==> n == |tasks|
      ensures !all ==> n == CountMet(tasks)
    {
      EligibleCount(tasks);
      |GetTasks(all)|
    }
  }

  /** After an add, the listed tasks are the old ones followed by the new eligible ones. */
  lemma AddThenList<A>(old_tasks: seq<Task<A>>, added: seq<Task<A>>, all: bool)
    ensures Eligible(old_tasks + added, all) == Eligible(old_tasks, all) + Eligible(added, all)
  {
    EligibleAppend(old_tasks, added, all);
  }

  /** One status callback: the task's running number, the total count, its description. */
  datatype Status = Status(number: nat, count: nat, description: Option<string>)

  /** A collection as the runner sees it: its mode and its eligible tasks. */
  datatype Batch<!A> = Batch(concurrent: bool, tasks: seq<Task<A>>)

  /**
   * Running one collection whose numbering starts after `start`: the statuses
   * of the submitted tasks and the error raised. A sequential collection stops
   * after its first failing task; a concurrent one submits every task and
   * reports the first failure in submission order.
   */
  function RunBatch<A>(concurrent: bool, ts: seq<Task<A>>, start: nat, count: nat): (r: (seq<Status>, Option<string>))
    ensures |r.0| <= |ts|
    ensures forall i | 0 <= i < |r.0| :: r.0[i].number == start + i + 1 && r.0[i].count == count
    ensures r.1.None? ==> |r.0| == |ts|
    ensures concurrent ==> |r.0| == |ts|
    decreases |ts|
  {
    if |ts| == 0 then ([], None)
    else
      var (events, err) := RunBatch(concurrent, ts[..|ts| - 1], start, count);
      var t := ts[|ts| - 1];
      if err.Some? && !concurrent then (events, err)
      else
        var status := Status(start + |events| + 1, count, t.description);
        (events + [status], if err.Some? then err else t.Execute())
  }

  /** The index of the first task that fails, if any. */
  function FirstFailure<A>(ts: seq<Task<A>>): (r: Option<nat>)
    ensures r.Some? ==> r.value < |ts| && ts[r.value].Execute().Some?
    ensures r.Some? ==> forall j | 0 <= j < r.value :: ts[j].Execute().None?
    ensures r.None? ==> forall j | 0 <= j < |ts| :: ts[j].Execute().None?
    decreases |ts|
  {
    if |ts| == 0 then None
    else
      var r := FirstFailure(ts[..|ts| - 1]);
      if r.Some? then r
      else if ts[|ts| - 1].Execute().Some? then Some(|ts| - 1)
      else None
  }

  /**
   * The failure semantics of one collection: the error is that of the first
   * failing task; a sequential collection submits tasks up to and including
   * that one, a concurrent collection submits them all.
   */
  lemma {:induction false} RunBatchFailure<A>(concurrent: bool, ts: seq<Task<A>>, start: nat, count: nat)
    ensures var (events, err) := RunBatch(concurrent, ts, start, count);
            var f := FirstFailure(ts);
            (f.None? ==> err.None? && |events| == |ts|) &&
            (f.Some? ==> err == ts[f.value].Execute() &&
                         |events| == (if concurrent then |ts| else f.value + 1))
    decreases |ts|
  {
    if |ts| > 0 {
      RunBatchFailure(concurrent, ts[..|ts| - 1], start, count);
    }
  }

  /** The submitted tasks are announced with their own descriptions, in order. */
  lemma {:induction false} RunBatchDescriptions<A>(concurrent: bool, ts: seq<Task<A>>, start: nat, count: nat)
    ensures var events := RunBatch(concurrent, ts, start, count).0;
            forall i | 0 <= i < |events| :: events[i].description == ts[i].description
    decreases |ts|
  {
    if |ts| > 0 {
      RunBatchDescriptions(concurrent, ts[..|ts| - 1], start, count);
    }
  }

  /** Total number of tasks over all batches. */
  function Total<A>(bs: seq<Batch<A>>): nat
    decreases |bs|
  {
    if |bs| == 0 then 0 else Total(bs[..|bs| - 1]) + |bs[|bs| - 1].tasks|
  }

  /**
   * Running the collections in order: a collection runs only if every earlier
   * one succeeded, and numbering continues from one collection to the next.
   */
  function RunAll<A>(bs: seq<Batch<A>>, count: nat): (r: (seq<Status>, Option<string>))
    ensures |r.0| <= Total(bs)
    ensures forall i | 0 <= i < |r.0| :: r.0[i].number == i + 1 && r.0[i].count == count
    ensures r.1.None? ==> |r.0| == Total(bs)
    decreases |bs|
  {
    if |bs| == 0 then ([], None)
    else
      var (events, err) := RunAll(bs[..|bs| - 1], count);
      if err.Some? then (events, err)
      else
        var b := bs[|bs| - 1];
        var (more, err') := RunBatch(b.concurrent, b.tasks, |events|, count);
        (events + more, err')
  }

  /** A run succeeds exactly when no task of any collection fails. */
  lemma {:induction false} RunAllSucceeds<A>(bs: seq<Batch<A>>, count: nat)
    ensures RunAll(bs, count).1.None? <==>
            forall k | 0 <= k < |bs| :: FirstFailure(bs[k].tasks).None?
    decreases |bs|
  {
    if |bs| > 0 {
      var b := bs[|bs| - 1];
      RunAllSucceeds(bs[..|bs| - 1], count);
      var (events, err) := RunAll(bs[..|bs| - 1], count);
      RunBatchFailure(b.concurrent, b.tasks, |events|, count);
    }
  }

  /** Once a collection fails, no task of a later collection is announced or run. */
  lemma {:induction false} RunAllStopsAtFailure<A>(bs: seq<Batch<A>>, count: nat, k: nat)
    requires k < |bs| && FirstFailure(bs[k].tasks).Some?
    ensures RunAll(bs, count).1.Some?
    ensures |RunAll(bs, count).0| <= Total(bs[..k + 1])
    decreases |bs|
  {
    var prefix := bs[..|bs| - 1];
    var (events, err) := RunAll(prefix, count);
    var b := bs[|bs| - 1];
    if k == |bs| - 1 {
      assert prefix == bs[..k];
      assert bs[..k + 1] == bs;
      if err.None? {
        RunBatchFailure(b.concurrent, b.tasks, |events|, count);
      }
    } else {
      assert prefix[k] == bs[k];
      RunAllStopsAtFailure(prefix, count, k);
      assert prefix[..k + 1] == bs[..k + 1];
    }
  }

  class TaskRunner<A> {
    var collections: seq<TaskCollection<A>>

    constructor()
      ensures collections == []
    {
      collections := [];
    }

    /** create_task_collection: a fresh, empty collection appended to the runner. */
    method CreateTaskCollection(concurrent: bool) returns (c: TaskCollection<A>)
      modifies this
      ensures fresh(c) && c.concurrent == concurrent && c.tasks == []
      ensures collections == old(collections) + [c]
    {
      c := new TaskCollection(concurrent);
      collections := collections + [c];
    }

    /** add_task_collection: the collections are appended in order. */
    method AddTaskCollection(cs: seq<TaskCollection<A>>)
      modifies this
      ensures collections == old(collections) + cs
    {
      collections := collections + cs;
    }

    /** What execute works on: each collection's mode and condition-filtered tasks. */
    function Batches(): (bs: seq<Batch<A>>)
      reads this, collections
      ensures |bs| == |collections|
      ensures forall k | 0 <= k < |bs| :: bs[k] == Batch(collections[k].concurrent, collections[k].GetTasks(false))
    {
      seq(|collections|, k reads this, collections requires 0 <= k < |collections| =>
        Batch(collections[k].concurrent, collections[k].GetTasks(false)))
    }

    /** get_task_count: the sum of the collections' eligible counts. */
    function GetTaskCount(): (n: nat)
      reads this, collections
      ensures n == Total(Batches())
    {
      SumCounts(collections, Batches())
    }

    /**
     * execute: every submitted task is announced with numbers 1, 2, ... and
     * the task count, collection by collection; the outcome is that of RunAll.
     */
    method Execute() returns (statuses: seq<Status>, error: Option<string>)
      ensures (statuses, error) == RunAll(Batches(), GetTaskCount())
    {
      var count := GetTaskCount();
      statuses, error := RunBatches(Batches(), count);
    }
  }

  /** The loop of execute over the collections, each seen as its concurrency flag and eligible tasks. */
  method RunBatches<A>(bs: seq<Batch<A>>, count: nat) returns (statuses: seq<Status>, error: Option<string>)
    ensures (statuses, error) == RunAll(bs, count)
  {
    statuses, error := [], None;
    for k := 0 to |bs|
      invariant (statuses, error) == RunAll(bs[..k], count)
      invariant error.None?
    {
      var more, err := RunCollection(bs[k].concurrent, bs[k].tasks, |statuses|, count);
      RunAllStep(bs, k, count);
      statuses := statuses + more;
      error := err;
      if error.Some? {
        RunAllFailedPrefix(bs, k + 1, count);
        return;
      }
    }
    TakeWhole(bs, |bs|);
  }

  /** One collection's loop: announce, submit, and in a sequential collection await each task. */
  method RunCollection<A>(concurrent: bool, tasks: seq<Task<A>>, start: nat, count: nat)
    returns (more: seq<Status>, err: Option<string>)
    ensures (more, err) == RunBatch(concurrent, tasks, start, count)
  {
    more, err := [], None;
    var i := 0;
    while i < |tasks|
      invariant 0 <= i <= |tasks|
      invariant (more, err) == RunBatch(concurrent, tasks[..i], start, count)
      invariant !concurrent ==> err.None?
    {
      assert tasks[..i + 1][..i] == tasks[..i];
      var task := tasks[i];
      more := more + [Status(start + |more| + 1, count, task.description)];
      var outcome := task.Execute();
      if err.None? {
        err := outcome;
      }
      i := i + 1;
      if err.Some? && !concurrent {
        RunBatchStops(concurrent, tasks, i, start, count);
        return;
      }
    }
    assert tasks[..i] == tasks;
  }

  /** The collections' counts summed, against the batch view they produce. */
  function SumCounts<A>(cs: seq<TaskCollection<A>>, bs: seq<Batch<A>>): (n: nat)
    reads cs
    requires |bs| == |cs|
    requires forall k | 0 <= k < |bs| :: bs[k].tasks == cs[k].GetTasks(false)
    ensures n == Total(bs)
    decreases |cs|
  {
    if |cs| == 0 then 0
    else SumCounts(cs[..|cs| - 1], bs[..|bs| - 1]) + cs[|cs| - 1].GetCount(false)
  }

  /** A sequential batch that has failed at task i - 1 produces nothing more. */
  lemma {:induction false} RunBatchStops<A>(concurrent: bool, ts: seq<Task<A>>, i: nat, start: nat, count: nat)
    requires i <= |ts|
    requires !concurrent && RunBatch(concurrent, ts[..i], start, count).1.Some?
    ensures RunBatch(concurrent, ts, start, count) == RunBatch(concurrent, ts[..i], start, count)
    decreases |ts| - i
  {
    if i < |ts| {
      var p := ts[..|ts| - 1];
      assert p[..i] == ts[..i];
      RunBatchStops(concurrent, p, i, start, count);
    } else {
      assert ts[..i] == ts;
    }
  }

  /** Running one more collection after a successful prefix. */
  lemma RunAllStep<A>(bs: seq<Batch<A>>, k: nat, count: nat)
    requires k < |bs| && RunAll(bs[..k], count).1.None?
    ensures var (events, _) := RunAll(bs[..k], count);
            var (more, err) := RunBatch(bs[k].concurrent, bs[k].tasks, |events|, count);
            RunAll(bs[..k + 1], count) == (events + more, err)
  {
    assert bs[..k + 1][..k] == bs[..k];
  }

  /** Once the first k collections have failed, the later ones change nothing. */
  lemma {:induction false} RunAllFailedPrefix<A>(bs: seq<Batch<A>>, k: nat, count: nat)
    requires k <= |bs|
    requires RunAll(bs[..k], count).1.Some?
    ensures RunAll(bs, count) == RunAll(bs[..k], count)
    decreases |bs| - k
  {
    if k < |bs| {
      var p := bs[..|bs| - 1];
      assert p[..k] == bs[..k];
      RunAllFailedPrefix(p, k, count);
    } else {
      assert bs[..k] == bs;
    }
  }
}
