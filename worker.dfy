/**
 The per-job step of the RabbitMQ worker: run the job, then delete it, bury it
 for a retry or delete it for good, log the failure and report a status.

 `Dispatch` describes one call of processJob as a value (what it returns and
 what it does to the job, the queue, the retry counter and the logger);
 `RabbitMqWorker.ProcessJob` is the step itself, proved to do exactly that;
 the lemmas state the decision table the worker promises.
 */
module Worker {
  import opened Collaborators

  /** The job statuses the worker reports to the worker loop. */
  datatype JobStatus = Success | FailureRecoverable | Failure

  /** How a call of processJob ends: `null` (the queue is not a RabbitMQ
      queue), a status, or an exception thrown by a queue mutation in the
      catch block, which leaves the call. */
  datatype Completion = NotHandled | Returned(status: JobStatus) | Raised(exception: Throwable)

  /** Everything one call of processJob does: its completion, how often it
      executes the job, and what it appends to the queue's actions, the retry
      counter's questions and the logger's records. */
  datatype Trace = Trace(result: Completion, executions: nat, ops: seq<Action>, consults: seq<Consult>, logs: seq<LogRecord>)

  /** The context array logged with a failure: the failure wrapped in a new
      exception that keeps its message and code and has it as previous, and
      the failure's trace text. */
  function CreateExceptionParams(e: Throwable): (params: map<string, ContextValue>)
    ensures params.Keys == {"exception", "stack_trace"}
    ensures params["exception"].WrappedException?
    ensures params["exception"].message == e.message && params["exception"].code == e.code
    ensures params["exception"].previous == e
    ensures params["stack_trace"] == Text(e.trace)
  {
    map["exception" := WrappedException(e.message, e.code, e), "stack_trace" := Text(e.trace)]
  }

  /** The exception a log context names as its cause, if it names one. */
  function LoggedCause(context: map<string, ContextValue>): (r: Option<Throwable>)
  {
    if "exception" in context && context["exception"].WrappedException?
    then Some(context["exception"].previous)
    else None
  }

  /** The trace text a log context carries, if it carries one. */
  function LoggedTrace(context: map<string, ContextValue>): (r: Option<string>)
  {
    if "stack_trace" in context && context["stack_trace"].Text?
    then Some(context["stack_trace"].text)
    else None
  }

  /** The catch block, entered with the exception `e` after the mutations
      `before` (none, or the delete of the success path that threw). The retry
      counter is asked once; its answer is `canRetry`. */
  function Caught(id: JobId, q: QueueView, before: seq<Action>, e: Throwable, canRetry: bool): (r: Trace)
  {
    var op := if canRetry then Action.Bury(id) else Action.Delete(id);
    var at := q.performed + |before|;
    if at in q.faults then
      Trace(Raised(q.faults[at]), 1, before + [op], [Consult(id, q.name)], [])
    else
      var level := if canRetry then Level.Warning else Level.Error;
      var status := if canRetry then FailureRecoverable else Failure;
      Trace(Returned(status), 1, before + [op], [Consult(id, q.name)],
            [LogRecord(level, e.message, CreateExceptionParams(e))])
  }

  /** One call of processJob for the job `id` whose execute() behaves as
      `exec`, on a queue in state `q`, where `canRetry` is what the retry
      counter would answer if asked. */
  function Dispatch(id: JobId, exec: Execution, q: QueueView, canRetry: bool): (t: Trace)
    ensures t.executions == (if q.retryAware then 1 else 0)
    ensures t.consults == [] || t.consults == [Consult(id, q.name)]
    ensures |t.logs| <= 1 && |t.ops| <= 2
    ensures forall k :: 0 <= k < |t.ops| ==> t.ops[k].job == id
  {
    if !q.retryAware then
      Trace(NotHandled, 0, [], [], [])
    else
      match exec
      case Completes =>
        if q.performed in q.faults then
          Caught(id, q, [Action.Delete(id)], q.faults[q.performed], canRetry)
        else
          Trace(Returned(Success), 1, [Action.Delete(id)], [], [])
      case Throws(e) =>
        Caught(id, q, [], e, canRetry)
  }

  /** A queue that is not retry-aware is declined: nothing runs, nothing changes. */
  lemma NotHandledIsInert(id: JobId, exec: Execution, q: QueueView, canRetry: bool)
    requires !q.retryAware
    ensures Dispatch(id, exec, q, canRetry) == Trace(NotHandled, 0, [], [], [])
  {
  }

  /** On a retry-aware queue the job runs exactly once and the call never ends in `null`. */
  lemma HandledRunsJobOnce(id: JobId, exec: Execution, q: QueueView, canRetry: bool)
    requires q.retryAware
    ensures var t := Dispatch(id, exec, q, canRetry);
      t.executions == 1 && !t.result.NotHandled? && 1 <= |t.ops|
  {
  }

  /** A job that runs and is deleted without error succeeds: one delete, no
      bury, no question to the retry counter, no log record. */
  lemma SuccessPath(id: JobId, q: QueueView, canRetry: bool)
    requires q.retryAware && q.performed !in q.faults
    ensures var t := Dispatch(id, Completes, q, canRetry);
      t.result == Returned(Success) && t.ops == [Action.Delete(id)] &&
      multiset(t.ops)[Action.Delete(id)] == 1 && multiset(t.ops)[Action.Bury(id)] == 0 &&
      t.consults == [] && t.logs == []
  {
  }

  /** A job that throws while retries remain is buried once, never deleted, and
      one warning carrying the exception's message is logged. */
  lemma RecoverablePath(id: JobId, e: Throwable, q: QueueView)
    requires q.retryAware && q.performed !in q.faults
    ensures var t := Dispatch(id, Throws(e), q, true);
      t.result == Returned(FailureRecoverable) && t.ops == [Action.Bury(id)] &&
      multiset(t.ops)[Action.Bury(id)] == 1 && multiset(t.ops)[Action.Delete(id)] == 0 &&
      t.consults == [Consult(id, q.name)] &&
      |t.logs| == 1 && t.logs[0].level == Level.Warning && t.logs[0].message == e.message
  {
  }

  /** A job that throws once its retries are exhausted is deleted once, never
      buried, and one error carrying the exception's message is logged. */
  lemma ExhaustedPath(id: JobId, e: Throwable, q: QueueView)
    requires q.retryAware && q.performed !in q.faults
    ensures var t := Dispatch(id, Throws(e), q, false);
      t.result == Returned(Failure) && t.ops == [Action.Delete(id)] &&
      multiset(t.ops)[Action.Delete(id)] == 1 && multiset(t.ops)[Action.Bury(id)] == 0 &&
      t.consults == [Consult(id, q.name)] &&
      |t.logs| == 1 && t.logs[0].level == Level.Error && t.logs[0].message == e.message
  {
  }

  /** The retry counter is asked exactly when something in the try block threw:
      the job, or the delete that follows it. */
  lemma ConsultedOnlyAfterThrow(id: JobId, exec: Execution, q: QueueView, canRetry: bool)
    ensures var t := Dispatch(id, exec, q, canRetry);
      t.consults != [] <==> q.retryAware && (exec.Throws? || q.performed in q.faults)
  {
  }

  /** When no queue mutation throws, a handled call applies exactly one
      mutation, a delete or a bury of the job. */
  lemma ExactlyOneMutation(id: JobId, exec: Execution, q: QueueView, canRetry: bool)
    requires q.retryAware && q.performed !in q.faults
    ensures var t := Dispatch(id, exec, q, canRetry);
      |t.ops| == 1 && (t.ops[0] == Action.Delete(id) || t.ops[0] == Action.Bury(id)) &&
      !t.result.Raised?
  {
  }

  /** A delete that throws after the job succeeded is caught like a job
      failure: the retry counter is asked, the job is buried or deleted a
      second time, and the call does not report success. */
  lemma FailedDeleteIsRetried(id: JobId, q: QueueView, canRetry: bool)
    requires q.retryAware && q.performed in q.faults
    ensures var t := Dispatch(id, Completes, q, canRetry);
      t.ops == [Action.Delete(id), if canRetry then Action.Bury(id) else Action.Delete(id)] &&
      t.consults == [Consult(id, q.name)] &&
      t.result != Returned(Success)
    ensures var t := Dispatch(id, Completes, q, canRetry);
      q.performed + 1 !in q.faults ==>
        t.result == Returned(if canRetry then FailureRecoverable else Failure) &&
        |t.logs| == 1 && t.logs[0].message == q.faults[q.performed].message
  {
  }

  /** The exception the catch block receives, if it is entered at all: the
      job's own, or else the one thrown by the delete that follows a job
      that completed. */
  function CaughtException(exec: Execution, q: QueueView): (r: Option<Throwable>)
  {
    match exec
    case Throws(e) => Some(e)
    case Completes => FaultAt(q.faults, q.performed)
  }

  /** A bury or delete that throws inside the catch block leaves the call with
      that exception, before anything is logged. The catch block is entered
      either because the job threw, and then its mutation is the queue's next
      one, or because the delete after a completed job threw, and then its
      mutation is the one after that. */
  lemma CatchFaultPropagates(id: JobId, exec: Execution, q: QueueView, canRetry: bool)
    requires q.retryAware && CaughtException(exec, q).Some?
    requires (if exec.Throws? then q.performed else q.performed + 1) in q.faults
    ensures var at := if exec.Throws? then q.performed else q.performed + 1;
      var t := Dispatch(id, exec, q, canRetry);
      t.result == Raised(q.faults[at]) && t.logs == [] && |t.ops| == at - q.performed + 1 &&
      t.ops[|t.ops| - 1] == (if canRetry then Action.Bury(id) else Action.Delete(id))
  {
  }

  /** Every failure status comes with exactly one log record, at warning level
      for a recoverable failure and at error level otherwise. Its message is
      the caught exception's message and its context is built from that same
      exception, so the logged cause is the caught exception itself, the
      wrapper keeps its code, and the trace is its trace. Every other
      completion logs nothing. */
  lemma DiagnosticComplete(id: JobId, exec: Execution, q: QueueView, canRetry: bool)
    ensures var t := Dispatch(id, exec, q, canRetry);
      if t.result == Returned(FailureRecoverable) || t.result == Returned(Failure) then
        CaughtException(exec, q).Some? &&
        var c := CaughtException(exec, q).value;
        |t.logs| == 1 &&
        (t.logs[0].level == Level.Warning <==> t.result == Returned(FailureRecoverable)) &&
        t.logs[0].message == c.message &&
        t.logs[0].context == CreateExceptionParams(c) &&
        LoggedCause(t.logs[0].context) == Some(c) &&
        t.logs[0].context["exception"].code == c.code &&
        LoggedTrace(t.logs[0].context) == Some(c.trace)
      else
        t.logs == []
  {
  }

  /** The worker, holding its retry counter and logger. */
  class RabbitMqWorker {
    const retryCounter: RetryCounter
    const logger: Logger

    constructor (retryCounter: RetryCounter, logger: Logger)
      ensures this.retryCounter == retryCounter && this.logger == logger
    {
      this.retryCounter := retryCounter;
      this.logger := logger;
    }

    /** Processes one job taken from `queue`. */
    method ProcessJob(job: Job, queue: Queue) returns (r: Completion)
      modifies job, queue, retryCounter, logger
      ensures var t := Dispatch(job.id, job.execution, old(queue.View()),
                                retryCounter.policy(old(retryCounter.consulted), Consult(job.id, queue.name)));
        r == t.result &&
        job.executions == old(job.executions) + t.executions &&
        queue.actions == old(queue.actions) + t.ops &&
        retryCounter.consulted == old(retryCounter.consulted) + t.consults &&
        logger.records == old(logger.records) + t.logs
    {
      if !queue.retryAware {
        return NotHandled;
      }
      var caught: Throwable;
      var thrown := job.Execute();
      if thrown.Some? {
        caught := thrown.value;
      } else {
        thrown := queue.Delete(job.id);
        if thrown.None? {
          return Returned(Success);
        }
        caught := thrown.value;
      }
      var retry := retryCounter.CanRetry(job.id, queue.GetName());
      if retry {
        thrown := queue.Bury(job.id);
        if thrown.Some? {
          return Raised(thrown.value);
        }
        logger.Warning(caught.message, CreateExceptionParams(caught));
        return Returned(FailureRecoverable);
      }
      thrown := queue.Delete(job.id);
      if thrown.Some? {
        return Raised(thrown.value);
      }
      logger.Error(caught.message, CreateExceptionParams(caught));
      return Returned(Failure);
    }
  }
}
