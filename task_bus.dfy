/** The per-thread completion bus of a Lead Agent: sub-agent tasks are
    dispatched under the sub-agent's thread id, their completions land in a
    FIFO queue, and the Lead Agent drains that queue.

    The executor and the futures are not modelled as threads. A dispatched
    task runs while its id is pending; its completion callback is the event
    `Complete`, which knows only the thread id and the agent name it
    captured, so all bookkeeping is keyed by the id string. Cancelling a
    running task completes its future on the spot, so the callback runs
    inside `cancel` and consumes the mark `cancel` has just set. */
module TaskBus {
  import opened Wrappers
  import opened Causes

  datatype TaskResult = TaskResult(threadId: string, agentName: string, result: string, isError: bool)

  /** What a task's completion callback captured at dispatch. */
  datatype Task = Task(threadId: string, agentName: string)

  /** How a task's future completed: with the sub-agent's reply or exceptionally. */
  datatype Outcome = Returned(value: string) | Threw(error: Chain)

  /** The completion that ends a blocking wait, if one happens before the timeout. */
  datatype Arrival = Arrival(task: Task, outcome: Outcome)

  /** The four structures of the bus. */
  datatype Bus = Bus(
    pending: set<string>,
    agentNames: map<string, string>,
    cancelled: set<string>,
    completed: seq<TaskResult>)

  const EMPTY: Bus := Bus({}, map[], {}, [])

  /** What a future cancelled by `cancel(true)` completes with. */
  const CANCELLATION: Chain := [Frame("CancellationException", false, None)]

  /** The bus invariant: `agentNames` has exactly the pending ids, and no
      cancellation mark outlives the `cancel` that set it. */
  ghost predicate Inv(b: Bus) {
    b.agentNames.Keys == b.pending && b.cancelled == {}
  }

  /** A task whose future has not completed: its id is pending under the
      name it was dispatched with. */
  predicate Running(b: Bus, t: Task) {
    t.threadId in b.pending && t.threadId in b.agentNames && b.agentNames[t.threadId] == t.agentName
  }

  function DuplicateMessage(threadId: string): string {
    "Task already running for threadId: " + threadId
  }

  /** `dispatch`: refused (IllegalStateException) while the id is pending;
      otherwise the id becomes pending under the agent name and its task runs. */
  function DispatchOn(b: Bus, threadId: string, agentName: string): Result<Bus, string> {
    if threadId in b.pending then Err(DuplicateMessage(threadId))
    else Ok(b.(pending := b.pending + {threadId}, agentNames := b.agentNames[threadId := agentName]))
  }

  /** The message of a failed task: the cause's message when the completion
      exception has a cause, else its own message. */
  function ErrorText(error: Chain): string {
    "Error: " + Text(if |error| >= 2 then error[1].message else error[0].message)
  }

  function ResultOf(t: Task, outcome: Outcome): TaskResult {
    match outcome
    case Returned(v) => TaskResult(t.threadId, t.agentName, v, false)
    case Threw(e) => TaskResult(t.threadId, t.agentName, ErrorText(e), true)
  }

  /** The `whenComplete` callback of a task. */
  function CompleteOn(b: Bus, t: Task, outcome: Outcome): Bus {
    var cleared := b.(pending := b.pending - {t.threadId}, agentNames := b.agentNames - {t.threadId});
    if t.threadId in b.cancelled then cleared.(cancelled := b.cancelled - {t.threadId})
    else cleared.(completed := b.completed + [ResultOf(t, outcome)])
  }

  /** `cancel`: a pending id is dropped and marked cancelled, then its future
      is cancelled, which runs the callback at once; for any other id only
      the (absent) name entry is removed. */
  function CancelOn(b: Bus, threadId: string): Bus
    requires threadId in b.pending ==> threadId in b.agentNames
  {
    if threadId in b.pending then
      var marked := b.(pending := b.pending - {threadId},
                       agentNames := b.agentNames - {threadId},
                       cancelled := b.cancelled + {threadId});
      CompleteOn(marked, Task(threadId, b.agentNames[threadId]), Threw(CANCELLATION))
    else b.(agentNames := b.agentNames - {threadId})
  }

  /** `shutdown`: every pending id cancelled. */
  function ShutdownOn(b: Bus): Bus {
    b.(pending := {}, agentNames := b.agentNames - b.pending, cancelled := b.cancelled - b.pending)
  }

  /** `awaitResults`: drain the queue; when it was empty, wait for one
      completion (none on timeout or interrupt) and drain again. */
  function AwaitOn(b: Bus, arrival: Option<Arrival>): (Bus, seq<TaskResult>)
    requires arrival.Some? ==> Running(b, arrival.value.task)
  {
    if |b.completed| > 0 then (b.(completed := []), b.completed)
    else match arrival
      case None => (b, [])
      case Some(a) =>
        var after := CompleteOn(b, a.task, a.outcome);
        (after.(completed := []), after.completed)
  }

  // ---------------------------------------------------------------------------
  // Properties of the bus
  // ---------------------------------------------------------------------------

  lemma EmptyInv()
    ensures Inv(EMPTY)
  {
  }

  /** A refused dispatch changes nothing; an accepted one makes the id pending
      under the given name with its task running, grows the pending count by
      one and keeps the invariant. */
  lemma DispatchEffect(b: Bus, threadId: string, agentName: string)
    requires Inv(b)
    ensures threadId in b.pending ==> DispatchOn(b, threadId, agentName) == Err(DuplicateMessage(threadId))
    ensures threadId !in b.pending ==>
      var r := DispatchOn(b, threadId, agentName);
      && r.Ok?
      && Running(r.value, Task(threadId, agentName))
      && r.value.pending == b.pending + {threadId} && |r.value.pending| == |b.pending| + 1
      && r.value.cancelled == b.cancelled && r.value.completed == b.completed
      && Inv(r.value)
  {
  }

  /** The completion of a running task clears its id from `pending` and
      `agentNames` and queues exactly one result, at the tail; the invariant
      holds after it. */
  lemma CompleteEffect(b: Bus, t: Task, outcome: Outcome)
    requires Inv(b) && Running(b, t)
    ensures var a := CompleteOn(b, t, outcome);
      && a.pending == b.pending - {t.threadId} && a.agentNames == b.agentNames - {t.threadId}
      && |a.pending| == |b.pending| - 1
      && a.completed == b.completed + [ResultOf(t, outcome)] && a.cancelled == b.cancelled
      && Inv(a)
  {
  }

  /** A failed task is queued as an error whose text starts with "Error: ";
      a successful one carries the returned text unchanged. */
  lemma ResultMarksErrors(t: Task, outcome: Outcome)
    ensures ResultOf(t, outcome).isError <==> outcome.Threw?
    ensures outcome.Returned? ==> ResultOf(t, outcome).result == outcome.value
    ensures outcome.Threw? ==> ResultOf(t, outcome).result[..7] == "Error: "
    ensures ResultOf(t, outcome).threadId == t.threadId && ResultOf(t, outcome).agentName == t.agentName
  {
  }

  /** Cancelling retires the id's task: it is no longer pending, nothing is
      queued for it, its mark is consumed by its own callback, and no task
      under the id runs afterwards. Cancelling an id that is not pending
      changes nothing. */
  lemma CancelRetiresTask(b: Bus, threadId: string)
    requires Inv(b)
    ensures var c := CancelOn(b, threadId);
      && c.pending == b.pending - {threadId} && c.agentNames == b.agentNames - {threadId}
      && c.completed == b.completed && c.cancelled == {}
      && Inv(c)
      && (forall t: Task :: t.threadId == threadId ==> !Running(c, t))
    ensures threadId !in b.pending ==> CancelOn(b, threadId) == b
  {
    if threadId !in b.pending {
      assert b.agentNames - {threadId} == b.agentNames;
    }
  }

  /** After shutdown nothing is pending or running, the queue is kept, and
      no mark is left. */
  lemma ShutdownRetiresAll(b: Bus)
    requires Inv(b)
    ensures ShutdownOn(b) == b.(pending := {}, agentNames := map[])
    ensures Inv(ShutdownOn(b))
    ensures forall t: Task :: !Running(ShutdownOn(b), t)
  {
  }

  /** A non-empty queue is handed over whole, in FIFO order, and left empty;
      an empty queue yields the one arrival's result, or nothing on timeout. */
  lemma AwaitDrains(b: Bus, arrival: Option<Arrival>)
    requires Inv(b)
    requires arrival.Some? ==> Running(b, arrival.value.task)
    ensures AwaitOn(b, arrival).0.completed == []
    ensures |b.completed| > 0 ==> AwaitOn(b, arrival).1 == b.completed
    ensures |b.completed| == 0 && arrival.None? ==> AwaitOn(b, arrival).1 == []
    ensures |b.completed| == 0 && arrival.Some? ==>
      AwaitOn(b, arrival).1 == [ResultOf(arrival.value.task, arrival.value.outcome)]
    ensures Inv(AwaitOn(b, arrival).0)
  {
    if |b.completed| == 0 && arrival.Some? {
      CompleteEffect(b, arrival.value.task, arrival.value.outcome);
    }
  }

  /** Bookkeeping is keyed by the id string, and cancel leaves nothing of the
      old task behind: after a dispatch and a cancel the bus is empty again,
      the id can be dispatched anew, and the new task's completion is queued
      under the new agent name. */
  lemma RedispatchAfterCancel(id: string, name1: string, name2: string, outcome: Outcome)
    ensures var b1 := DispatchOn(EMPTY, id, name1).value;
      var b2 := CancelOn(b1, id);
      var b3 := DispatchOn(b2, id, name2);
      && b2 == EMPTY
      && b3.Ok? && Running(b3.value, Task(id, name2))
      && CompleteOn(b3.value, Task(id, name2), outcome) == EMPTY.(completed := [ResultOf(Task(id, name2), outcome)])
  {
    var b1 := DispatchOn(EMPTY, id, name1).value;
    assert b1.agentNames - {id} == map[];
    var b3 := DispatchOn(EMPTY, id, name2).value;
    assert b3.agentNames - {id} == map[];
  }

  // ---------------------------------------------------------------------------
  // The bus object
  // ---------------------------------------------------------------------------

  class AsyncTaskManager {
    var pending: set<string>
    var agentNames: map<string, string>
    var cancelled: set<string>
    var completed: seq<TaskResult>

    function State(): Bus
      reads this
    {
      Bus(pending, agentNames, cancelled, completed)
    }

    ghost predicate Valid()
      reads this
    {
      Inv(State())
    }

    constructor ()
      ensures Valid() && State() == EMPTY
    {
      pending, agentNames, cancelled, completed := {}, map[], {}, [];
    }

    /** Starts a sub-agent task, or reports (as the IllegalStateException
        message) that one is already running for the id. */
    method Dispatch(threadId: string, agentName: string) returns (error: Option<string>)
      requires Valid()
      modifies this
      ensures Valid()
      ensures match DispatchOn(old(State()), threadId, agentName)
        case Ok(b) => error == None && State() == b
        case Err(m) => error == Some(m) && State() == old(State())
    {
      DispatchEffect(State(), threadId, agentName);
      if threadId in pending {
        return Some(DuplicateMessage(threadId));
      }
      agentNames := agentNames[threadId := agentName];
      pending := pending + {threadId};
      return None;
    }

    /** The `whenComplete` callback of a task. */
    method Complete(task: Task, outcome: Outcome)
      modifies this
      ensures State() == CompleteOn(old(State()), task, outcome)
    {
      pending := pending - {task.threadId};
      agentNames := agentNames - {task.threadId};
      if task.threadId in cancelled {
        cancelled := cancelled - {task.threadId};
        return;
      }
      completed := completed + [ResultOf(task, outcome)];
    }

    method AwaitResults(arrival: Option<Arrival>) returns (results: seq<TaskResult>)
      requires Valid()
      requires arrival.Some? ==> Running(State(), arrival.value.task)
      modifies this
      ensures Valid()
      ensures (State(), results) == AwaitOn(old(State()), arrival)
    {
      AwaitDrains(State(), arrival);
      results := completed;
      completed := [];
      if |results| == 0 && arrival.Some? {
        assert State() == old(State());
        Complete(arrival.value.task, arrival.value.outcome);
        ghost var after := State();
        if |completed| > 0 {
          results := [completed[0]];
          results := results + completed[1..];
          assert results == after.completed;
          completed := [];
        }
      }
    }

    method HasPendingTasks() returns (r: bool)
      ensures r <==> pending != {}
    {
      r := pending != {};
    }

    method PendingCount() returns (n: nat)
      ensures n == |pending|
    {
      n := |pending|;
    }

    /** The name of every pending task, read off `agentNames`. */
    method GetPendingAgents() returns (r: map<string, string>)
      requires Valid()
      ensures r.Keys == pending
      ensures forall k :: k in r ==> k in agentNames && r[k] == agentNames[k]
    {
      r := map[];
      var keys := agentNames.Keys;
      while keys != {}
        invariant keys <= agentNames.Keys
        invariant r.Keys == (agentNames.Keys - keys) * pending
        invariant forall k :: k in r ==> k in agentNames && r[k] == agentNames[k]
        decreases keys
      {
        var k :| k in keys;
        if k in pending {
          r := r[k := agentNames[k]];
        }
        keys := keys - {k};
      }
    }

    method Cancel(threadId: string)
      requires Valid()
      modifies this
      ensures Valid()
      ensures State() == CancelOn(old(State()), threadId)
    {
      CancelRetiresTask(State(), threadId);
      if threadId in pending {
        var agentName := agentNames[threadId];
        pending := pending - {threadId};
        agentNames := agentNames - {threadId};
        cancelled := cancelled + {threadId};
        // `future.cancel(true)` completes the future, which runs its callback here
        Complete(Task(threadId, agentName), Threw(CANCELLATION));
      } else {
        agentNames := agentNames - {threadId};
      }
    }

    /** Cancels every id that is pending when shutdown starts. */
    method Shutdown()
      requires Valid()
      modifies this
      ensures Valid()
      ensures State() == ShutdownOn(old(State()))
    {
      var ids := pending;
      ghost var start := State();
      while ids != {}
        invariant Valid()
        invariant pending == ids && ids <= start.pending
        invariant agentNames == start.agentNames - (start.pending - ids)
        invariant completed == start.completed
        decreases ids
      {
        var id :| id in ids;
        Cancel(id);
        ids := ids - {id};
      }
    }
  }
}
