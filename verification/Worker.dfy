/** internal/worker/worker.go: handleMessage and what it calls, run by one goroutine among many. */
module Workers {
  import opened Basics
  import opened Statuses
  import opened Retry
  import opened Rows
  import opened Protocol
  import opened Stores
  import opened Queues
  import opened Metrics
  import opened Clusters
  import opened Guarantees
  import opened Safety
  import Errors

  /** How the handler's run went: its error, and whether the execution context's deadline passed. */
  datatype Execution = Execution(error: Option<Errors.Error>, deadlinePassed: bool)

  function TraceFor(m: StreamMessage, row: Row): string {
    if m.task.traceId == "" then TraceOf(row) else m.task.traceId
  }

  /** How the run of row ends, as the protocol sees it. */
  function AnswerTo(row: Row, execution: Execution): Outcome {
    Errors.OutcomeOf(Errors.ExecutionError(row.timeoutSeconds, execution.error, execution.deadlinePassed))
  }

  /** A run succeeds if and only if its handler returned no error before the deadline; past the deadline it fails with a
      retryable timeout, and otherwise with the handler's error. */
  ghost predicate Decides(timeoutSeconds: int, execution: Execution, o: Outcome) {
    && (o == Done <==> execution.error == None && !execution.deadlinePassed)
    && (execution.deadlinePassed ==>
          o == Fault("task execution timed out after " +
                     Errors.DurationText(if timeoutSeconds <= 0 then 300 else timeoutSeconds), false))
    && (!execution.deadlinePassed && execution.error.Some? ==>
          && o.Fault? && o.failure == Errors.Text(execution.error.value)
          && (o.nonRetryable <==> Errors.WrapsNonRetryable(execution.error.value)))
  }

  lemma AnswerDecides(row: Row, execution: Execution)
    ensures Decides(row.timeoutSeconds, execution, AnswerTo(row, execution))
  {
    if !execution.deadlinePassed && execution.error.Some? { Errors.NonRetryableAtAnyDepth(execution.error.value); }
  }

  lemma LabelsKept(c: Config, s: State, xs: seq<Action>, s': State, id: TaskId, taskType: string, traceId: string)
    requires Ran(c, s, xs, s') && Labels(s.rows, id, taskType, traceId)
    ensures Labels(s'.rows, id, taskType, traceId)
  {
    RunKeepsTasks(c, s, xs, id);
  }

  /** The task, as it was read some time ago, is the stored one but for its mutable columns. */
  predicate Describes(s: State, task: Task) {
    task.id in s.rows && SameTask(task.row, s.rows[task.id])
  }

  class Worker {
    const cluster: Cluster
    const name: string

    constructor (cluster: Cluster, name: string)
      ensures this.cluster == cluster && this.name == name
    {
      this.cluster, this.name := cluster, name;
    }

    /** The handler runs under its timeout; past the deadline its answer does not count. */
    method ExecuteWithTimeout(me: ActorId, running: Row, execution: Execution)
      returns (error: Option<Errors.Error>, ghost xs: seq<Action>)
      requires cluster.Valid() && me in cluster.jobs && cluster.jobs[me].Executing?
      modifies cluster.Repr()
      ensures cluster.SameBegun(me)
      ensures cluster.Valid() && Ran(cluster.config, old(cluster.View()), xs, cluster.View())
      ensures error == Errors.ExecutionError(running.timeoutSeconds, execution.error, execution.deadlinePassed)
      ensures !execution.deadlinePassed ==> error == execution.error
      ensures execution.deadlinePassed ==>
        && error.Some? && !Errors.WrapsNonRetryable(error.value)
        && Errors.Text(error.value) == "task execution timed out after " +
             Errors.DurationText(if running.timeoutSeconds <= 0 then 300 else running.timeoutSeconds)
      ensures Faults(xs, me) == 0 && cluster.outages == old(cluster.outages)
      ensures Answers(xs, me) == [Errors.OutcomeOf(error)]
      ensures me in cluster.jobs
      ensures cluster.jobs[me] == AfterHandler(old(cluster.jobs)[me].message, Errors.OutcomeOf(error))
    {
      error := Errors.ExecutionError(running.timeoutSeconds, execution.error, execution.deadlinePassed);
      if execution.deadlinePassed { Errors.TimeoutsAreRetryable(error.value); }
      xs := cluster.Finish(me, Errors.OutcomeOf(error));
    }

    /** MarkFailed, the retry decision, CompleteFailure, the counters and the dead letter. */
    method HandleExecutionFailure(me: ActorId, running: Task, traceId: string, error: Errors.Error, m: Message)
      returns (failure: Option<Failure>, ghost xs: seq<Action>)
      requires cluster.Valid() && me in cluster.jobs && m.task == running.id
      requires cluster.jobs[me] == Failing(m, Errors.Text(error), Errors.IsNonRetryable(error))
      requires Labels(cluster.store.rows, running.id, running.row.taskType, traceId)
      modifies cluster.Repr()
      ensures cluster.SameBegun(me)
      ensures cluster.Valid() && Ran(cluster.config, old(cluster.View()), xs, cluster.View())
      ensures Faults(xs, me) == cluster.outages - old(cluster.outages) && Answers(xs, me) == []
      ensures failure.None? ==> me in cluster.jobs && cluster.jobs[me] == CountingFailure(m)
      ensures failure.Some? ==> me !in cluster.jobs
      ensures failure == Some(Unavailable) ==> cluster.outages > old(cluster.outages)
    {
      ghost var c, start := cluster.config, cluster.View();
      var text := Errors.Text(error);
      var marked;
      marked, xs := cluster.MarkFailed(me, running.id, text);
      if marked.Err? {
        return Some(marked.error), xs;
      }
      var row := marked.value;

      ghost var s1 := cluster.View();
      var now, ys := cluster.Now(me);
      RanThen(c, start, xs, s1, ys, cluster.View(), me);
      xs := xs + ys;
      var decision := DecideFailure(now, row.retryCount, row.maxRetries);
      if Errors.IsNonRetryable(error) {
        decision := FailureDecision(Dead, row.retryCount, None);
      }

      s1 := cluster.View();
      var final;
      final, ys := cluster.CompleteFailure(me, running.id, decision, text);
      RanThen(c, start, xs, s1, ys, cluster.View(), me);
      xs := xs + ys;
      if final.Err? {
        return Some(final.error), xs;
      }

      s1 := cluster.View();
      LabelsKept(c, start, xs, s1, running.id, running.row.taskType, traceId);
      ys := Conclude(me, running, traceId, text, final.value, m);
      RanThen(c, start, xs, s1, ys, cluster.View(), me);
      xs := xs + ys;
      failure := None;
    }

    /** The end of HandleExecutionFailure, once the failure is final. */
    method Conclude(me: ActorId, running: Task, traceId: string, text: string, final: Row, m: Message)
      returns (ghost xs: seq<Action>)
      requires cluster.Valid() && me in cluster.jobs && m.task == running.id
      requires final.status == Retrying || final.status == Dead
      requires cluster.jobs[me] == CountingOutcome(running.id, final.status == Dead, text, final.retryCount, m)
      requires Labels(cluster.store.rows, running.id, running.row.taskType, traceId)
      modifies cluster.Repr()
      ensures cluster.SameBegun(me)
      ensures cluster.Valid() && Ran(cluster.config, old(cluster.View()), xs, cluster.View())
      ensures Faults(xs, me) == cluster.outages - old(cluster.outages) && Answers(xs, me) == []
      ensures me in cluster.jobs && cluster.jobs[me] == CountingFailure(m)
    {
      ghost var start := cluster.View();
      if final.status == Retrying {
        xs := cluster.Count(me, RetriedTotal, 0);
      } else {
        xs := cluster.Count(me, DeadTotal, 0);
      }
      if final.status == Dead && cluster.config.workerBuries {
        ghost var s1 := cluster.View();
        LabelsKept(cluster.config, start, xs, s1, running.id, running.row.taskType, traceId);
        var ok, ys := cluster.PublishDead(me,
          DeadTaskMessage(running.id, running.row.taskType, traceId, text, final.retryCount));
        RanThen(cluster.config, start, xs, s1, ys, cluster.View(), me);
        xs := xs + ys;
      }
    }

    /** The start is counted, with the time the task has waited since it was created. */
    method CountStart(me: ActorId, running: Task) returns (ghost xs: seq<Action>)
      requires cluster.Valid() && me in cluster.jobs && cluster.jobs[me].Starting? && cluster.jobs[me].message.task == running.id
      requires Describes(cluster.View(), running)
      modifies cluster.Repr()
      ensures cluster.Valid() && Ran(cluster.config, old(cluster.View()), xs, cluster.View())
      ensures Faults(xs, me) == 0 && cluster.outages == old(cluster.outages) && Answers(xs, me) == []
      ensures me in cluster.jobs && cluster.jobs[me] == Executing(old(cluster.jobs)[me].message)
      ensures me in cluster.begun && cluster.begun[me] == cluster.now && Describes(cluster.View(), running)
    {
      ghost var start := cluster.View();
      xs := cluster.Count(me, StartedTotal, cluster.now - running.row.createdAt);
      RunKeepsTasks(cluster.config, start, xs, running.id);
    }

    /** Claims the task, unless its message is a recovered one of a run that was left behind, and counts the start. */
    method Start(me: ActorId, message: StreamMessage, current: Row)
      returns (failure: Option<Failure>, running: Option<Task>, ghost xs: seq<Action>)
      requires cluster.Valid() && me in cluster.jobs && cluster.config.consumer(me) == name
      requires
        var m := Message(message.redisId, message.task.id);
        cluster.jobs[me] == if message.recovered && current.status == Running then Starting(m) else Claiming(m)
      requires Describes(cluster.View(), Task(message.task.id, current))
      modifies cluster.Repr()
      ensures cluster.Valid() && Ran(cluster.config, old(cluster.View()), xs, cluster.View())
      ensures Faults(xs, me) == cluster.outages - old(cluster.outages) && Answers(xs, me) == []
      ensures failure == Some(Unavailable) ==> cluster.outages > old(cluster.outages)
      ensures failure.Some? <==> running.None?
      ensures running.Some? ==>
        && running.value.id == message.task.id && Describes(cluster.View(), running.value)
        && me in cluster.jobs && cluster.jobs[me] == Executing(Message(message.redisId, message.task.id))
      ensures running.Some? ==> me in cluster.begun && cluster.begun[me] == cluster.now
      ensures running.None? ==> me !in cluster.jobs
    {
      ghost var start, s1 := cluster.View(), cluster.View();
      xs := [];
      var row := current;
      if !(message.recovered && current.status == Running) {
        var claimed;
        claimed, xs := cluster.Transition(me, message.task.id, Pending, Running, Some(name));
        if claimed.Err? {
          return Some(claimed.error), None, xs;
        }
        row := claimed.value;
        s1 := cluster.View();
      }
      ghost var ys := CountStart(me, Task(message.task.id, row));
      RanThen(cluster.config, start, xs, s1, ys, cluster.View(), me);
      failure, running, xs := None, Some(Task(message.task.id, row)), xs + ys;
    }

    /** The message is an entry of the stream. */
    ghost predicate FromStream(message: StreamMessage)
      reads cluster.stream
    {
      message.redisId < |cluster.stream.entries| && cluster.stream.entries[message.redisId] == message.task
    }

    /** A terminal task's message is acked, and any other task is started. */
    method TakeUp(me: ActorId, message: StreamMessage, current: Row, traceId: string)
      returns (failure: Option<Failure>, running: Option<Task>, ghost xs: seq<Action>)
      requires cluster.Valid() && me in cluster.jobs && cluster.config.consumer(me) == name
      requires
        var m := Message(message.redisId, message.task.id);
        cluster.jobs[me] ==
          if current.status.IsTerminal() then Acking(m)
          else if message.recovered && current.status == Running then Starting(m)
          else Claiming(m)
      requires Describes(cluster.View(), Task(message.task.id, current))
      requires Labels(cluster.store.rows, message.task.id, current.taskType, traceId)
      modifies cluster.Repr()
      ensures cluster.Valid() && Ran(cluster.config, old(cluster.View()), xs, cluster.View())
      ensures Faults(xs, me) == cluster.outages - old(cluster.outages) && Answers(xs, me) == []
      ensures failure == Some(Unavailable) ==> cluster.outages > old(cluster.outages)
      ensures running.Some? ==>
        && failure.None? && running.value.id == message.task.id && Describes(cluster.View(), running.value)
        && Labels(cluster.store.rows, running.value.id, running.value.row.taskType, traceId)
        && me in cluster.jobs && cluster.jobs[me] == Executing(Message(message.redisId, message.task.id))
      ensures running.Some? ==> me in cluster.begun && cluster.begun[me] == cluster.now
      ensures running.None? ==> me !in cluster.jobs
      ensures running.None? && failure.None? ==> message.redisId !in cluster.stream.pel
    {
      ghost var start := cluster.View();
      running := None;
      if current.status.IsTerminal() {
        var ok;
        ok, xs := cluster.Ack(me, message.redisId);
        failure := if ok then None else Some(Unavailable);
      } else {
        failure, running, xs := Start(me, message, current);
        LabelsKept(cluster.config, start, xs, cluster.View(), message.task.id, current.taskType, traceId);
      }
    }

    /** The start of HandleMessage: the task is read, skipped if it is terminal, and started otherwise. */
    method Begin(me: ActorId, message: StreamMessage)
      returns (failure: Option<Failure>, running: Option<Task>, traceId: string, ghost xs: seq<Action>)
      requires cluster.Valid() && me in cluster.jobs && cluster.config.consumer(me) == name
      requires cluster.jobs[me] == Received(Message(message.redisId, message.task.id), message.recovered)
      requires FromStream(message)
      modifies cluster.Repr()
      ensures cluster.Valid() && Ran(cluster.config, old(cluster.View()), xs, cluster.View())
      ensures Faults(xs, me) == cluster.outages - old(cluster.outages) && Answers(xs, me) == []
      ensures failure == Some(Unavailable) ==> cluster.outages > old(cluster.outages)
      ensures running.Some? ==>
        && failure.None? && running.value.id == message.task.id && Describes(cluster.View(), running.value)
        && Labels(cluster.store.rows, running.value.id, running.value.row.taskType, traceId)
        && me in cluster.jobs && cluster.jobs[me] == Executing(Message(message.redisId, message.task.id))
      ensures running.Some? ==> me in cluster.begun && cluster.begun[me] == cluster.now
      ensures running.None? ==> me !in cluster.jobs
      ensures running.None? && failure.None? ==> message.redisId !in cluster.stream.pel
    {
      ghost var start := cluster.View();
      running, traceId := None, message.task.traceId;
      var current;
      current, xs := cluster.Get(me, message.task.id);
      if current.Err? {
        return Some(current.error), None, traceId, xs;
      }
      traceId := TraceFor(message, current.value);

      ghost var s1 := cluster.View();
      LabelsKept(cluster.config, start, xs, s1, message.task.id, message.task.taskType, message.task.traceId);
      ghost var ys;
      failure, running, ys := TakeUp(me, message, current.value, traceId);
      RanThen(cluster.config, start, xs, s1, ys, cluster.View(), me);
      xs := xs + ys;
    }

    /** The end of HandleMessage, after a handler that succeeded. */
    method Succeed(me: ActorId, message: StreamMessage, startedAt: int)
      returns (failure: Option<Failure>, ghost xs: seq<Action>)
      requires cluster.Valid() && me in cluster.jobs && cluster.config.consumer(me) == name
      requires cluster.jobs[me] == Succeeding(Message(message.redisId, message.task.id))
      requires me in cluster.begun && cluster.begun[me] == startedAt
      modifies cluster.Repr()
      ensures cluster.Valid() && Ran(cluster.config, old(cluster.View()), xs, cluster.View())
      ensures Faults(xs, me) == cluster.outages - old(cluster.outages) && Answers(xs, me) == []
      ensures me !in cluster.jobs
      ensures failure == Some(Unavailable) ==> cluster.outages > old(cluster.outages)
      ensures failure.None? ==> message.redisId !in cluster.stream.pel
    {
      ghost var start := cluster.View();
      var moved;
      moved, xs := cluster.Transition(me, message.task.id, Running, Success, Some(name));
      if moved.Err? {
        return Some(moved.error), xs;
      }
      ghost var s1 := cluster.View();
      ghost var ys;
      failure, ys := CountAndAck(me, message, SucceededTotal, startedAt);
      RanThen(cluster.config, start, xs, s1, ys, cluster.View(), me);
      xs := xs + ys;
    }

    method CountAndAck(me: ActorId, message: StreamMessage, counter: Counter, startedAt: int)
      returns (failure: Option<Failure>, ghost xs: seq<Action>)
      requires cluster.Valid() && me in cluster.jobs
      requires
        var m := Message(message.redisId, message.task.id);
        || (counter == SucceededTotal && cluster.jobs[me] == CountingSuccess(m))
        || (counter == FailedTotal && cluster.jobs[me] == CountingFailure(m))
      requires me in cluster.begun && cluster.begun[me] == startedAt
      modifies cluster.Repr()
      ensures cluster.Valid() && Ran(cluster.config, old(cluster.View()), xs, cluster.View())
      ensures Faults(xs, me) == cluster.outages - old(cluster.outages) && Answers(xs, me) == []
      ensures me !in cluster.jobs
      ensures failure.Some? ==> cluster.outages > old(cluster.outages)
      ensures failure.None? ==> message.redisId !in cluster.stream.pel
    {
      ghost var start := cluster.View();
      xs := cluster.Count(me, counter, cluster.now - startedAt);
      ghost var s1 := cluster.View();
      var ok, ys := cluster.Ack(me, message.redisId);
      RanThen(cluster.config, start, xs, s1, ys, cluster.View(), me);
      failure, xs := if ok then None else Some(Unavailable), xs + ys;
    }

    /** The end of HandleMessage, after a handler that failed. */
    method Fail(me: ActorId, message: StreamMessage, running: Task, traceId: string, error: Errors.Error, startedAt: int)
      returns (failure: Option<Failure>, ghost xs: seq<Action>)
      requires cluster.Valid() && me in cluster.jobs && message.task.id == running.id
      requires cluster.jobs[me] ==
        Failing(Message(message.redisId, running.id), Errors.Text(error), Errors.IsNonRetryable(error))
      requires Labels(cluster.store.rows, running.id, running.row.taskType, traceId)
      requires me in cluster.begun && cluster.begun[me] == startedAt
      modifies cluster.Repr()
      ensures cluster.Valid() && Ran(cluster.config, old(cluster.View()), xs, cluster.View())
      ensures Faults(xs, me) == cluster.outages - old(cluster.outages) && Answers(xs, me) == []
      ensures me !in cluster.jobs
      ensures failure == Some(Unavailable) ==> cluster.outages > old(cluster.outages)
      ensures failure.None? ==> message.redisId !in cluster.stream.pel
    {
      ghost var start := cluster.View();
      failure, xs := HandleExecutionFailure(me, running, traceId, error, Message(message.redisId, running.id));
      if failure.Some? {
        return;
      }
      ghost var s1 := cluster.View();
      ghost var ys;
      failure, ys := CountAndAck(me, message, FailedTotal, startedAt);
      RanThen(cluster.config, start, xs, s1, ys, cluster.View(), me);
      xs := xs + ys;
    }

    /** The handler's deadline is that of the stored task. */
    lemma StoredDecides(s: State, xs: seq<Action>, s': State, running: Task, execution: Execution)
      requires Ran(cluster.config, s, xs, s') && Describes(s, running)
      ensures running.id in s'.rows
      ensures Decides(s'.rows[running.id].timeoutSeconds, execution, AnswerTo(running.row, execution))
    {
      RunKeepsTasks(cluster.config, s, xs, running.id);
      AnswerDecides(running.row, execution);
    }

    /** The end of HandleMessage, once the handler has answered. */
    method Settle(me: ActorId, message: StreamMessage, running: Task, traceId: string, error: Option<Errors.Error>,
                  startedAt: int)
      returns (failure: Option<Failure>, ghost xs: seq<Action>)
      requires cluster.Valid() && me in cluster.jobs && cluster.config.consumer(me) == name
      requires running.id == message.task.id && Labels(cluster.store.rows, running.id, running.row.taskType, traceId)
      requires cluster.jobs[me] == AfterHandler(Message(message.redisId, message.task.id), Errors.OutcomeOf(error))
      requires me in cluster.begun && cluster.begun[me] == startedAt
      modifies cluster.Repr()
      ensures cluster.Valid() && Ran(cluster.config, old(cluster.View()), xs, cluster.View())
      ensures me !in cluster.jobs && Answers(xs, me) == []
      ensures Faults(xs, me) == cluster.outages - old(cluster.outages)
      ensures failure == Some(Unavailable) ==> cluster.outages > old(cluster.outages)
      ensures failure.None? ==> message.redisId !in cluster.stream.pel
    {
      if error.None? {
        failure, xs := Succeed(me, message, startedAt);
      } else {
        failure, xs := Fail(me, message, running, traceId, error.value, startedAt);
      }
    }

    /** The middle of HandleMessage, once the task is running and counted as started. */
    method Execute(me: ActorId, message: StreamMessage, running: Task, traceId: string, execution: Execution)
      returns (failure: Option<Failure>, ghost xs: seq<Action>)
      requires cluster.Valid() && me in cluster.jobs && cluster.config.consumer(me) == name
      requires Describes(cluster.View(), running)
      requires running.id == message.task.id && Labels(cluster.store.rows, running.id, running.row.taskType, traceId)
      requires cluster.jobs[me] == Executing(Message(message.redisId, message.task.id))
      requires me in cluster.begun && cluster.begun[me] == cluster.now
      modifies cluster.Repr()
      ensures cluster.Valid() && Ran(cluster.config, old(cluster.View()), xs, cluster.View())
      ensures me !in cluster.jobs
      ensures Faults(xs, me) == cluster.outages - old(cluster.outages)
      ensures running.id in cluster.store.rows
      ensures |Answers(xs, me)| == 1 && Decides(cluster.store.rows[running.id].timeoutSeconds, execution, Answers(xs, me)[0])
      ensures failure == Some(Unavailable) ==> cluster.outages > old(cluster.outages)
      ensures failure.None? ==> message.redisId !in cluster.stream.pel
    {
      ghost var start := cluster.View();
      var startedAt := cluster.now;
      var error;
      error, xs := ExecuteWithTimeout(me, running.row, execution);
      ghost var s1 := cluster.View();
      ghost var ys;
      LabelsKept(cluster.config, start, xs, s1, running.id, running.row.taskType, traceId);
      failure, ys := Settle(me, message, running, traceId, error, startedAt);
      RanThen(cluster.config, start, xs, s1, ys, cluster.View(), me);
      xs := xs + ys;
      StoredDecides(start, xs, cluster.View(), running, execution);
    }

    /** What is known of a message once it was handled without an error. */
    lemma Handled(s: State, xs: seq<Action>, s': State, me: ActorId, m: Message)
      requires Reachable(cluster.config, s) && Ran(cluster.config, s, xs, s')
      requires me in s.jobs && s.jobs[me].Received? && s.jobs[me].message == m
      ensures m.task in s'.rows
      ensures m.entry !in s'.pel ==> Closed(s', m)
    {
      ReachableKeepsInv(cluster.config, s);
      assert JobOk(s, s.jobs[me]);
      RunKeepsTasks(cluster.config, s, xs, m.task);
      if m.entry !in s'.pel { AckedIsOver(cluster.config, s, xs, m); }
    }

    /** One delivered message from Get to XACK.  Whatever the other actors do meanwhile, the goroutine takes
        exactly the actions its jobs owe: it leaves out none of them unless a command failed, the handler runs
        at most once, and it ends without an error only once the message is acked. */
    method HandleMessage(me: ActorId, message: StreamMessage, execution: Execution)
      returns (failure: Option<Failure>, ghost xs: seq<Action>)
      requires cluster.Valid() && me in cluster.jobs && cluster.config.consumer(me) == name
      requires cluster.jobs[me] == Received(Message(message.redisId, message.task.id), message.recovered)
      requires Reachable(cluster.config, cluster.View()) && FromStream(message)
      modifies cluster.Repr()
      ensures cluster.Valid() && Ran(cluster.config, old(cluster.View()), xs, cluster.View())
      ensures me !in cluster.jobs
      ensures Faults(xs, me) == cluster.outages - old(cluster.outages)
      ensures message.task.id in cluster.store.rows
      ensures Answers(xs, me) == [] ||
        (|Answers(xs, me)| == 1 &&
         Decides(cluster.store.rows[message.task.id].timeoutSeconds, execution, Answers(xs, me)[0]))
      ensures failure == Some(Unavailable) ==> cluster.outages > old(cluster.outages)
      ensures failure.None? ==>
        message.redisId !in cluster.stream.pel && Closed(cluster.View(), Message(message.redisId, message.task.id))
    {
      ghost var start := cluster.View();
      var running, traceId;
      failure, running, traceId, xs := Begin(me, message);
      if running.Some? {
        ghost var s1 := cluster.View();
        ghost var ys;
        failure, ys := Execute(me, message, running.value, traceId, execution);
        RanThen(cluster.config, start, xs, s1, ys, cluster.View(), me);
        xs := xs + ys;
      }
      Handled(start, xs, cluster.View(), me, Message(message.redisId, message.task.id));
    }
  }
}
