/**
 The objects the RabbitMQ worker talks to while it processes one job: the job
 itself, the queue it came from, the retry counter and the logger. Each is
 reduced to what the worker can observe of it. The job's business logic, the
 RabbitMQ transport and the retry counter's bookkeeping are replaced by
 oracles fixed when the object is built, so that every behaviour they could
 show the worker is a choice of oracle.
 */
module Collaborators {

  datatype Option<+T> = None | Some(value: T)

  /** A PHP Throwable as far as the worker reads it: getMessage(), getCode(),
      getTraceAsString() and the previous exception of its cause chain. */
  datatype Throwable = Throwable(message: string, code: int, trace: string, previous: Option<Throwable>)

  /** The stable identity of a job, as the queue and the retry counter see it. */
  type JobId = int

  /** What a call to the job's execute() does: return normally or throw. */
  datatype Execution = Completes | Throws(exception: Throwable)

  /** A mutation the worker applies to a queue. */
  datatype Action = Delete(job: JobId) | Bury(job: JobId)

  /** One question put to the retry counter: may this job be retried on this queue? */
  datatype Consult = Consult(job: JobId, queueName: string)

  datatype Level = Warning | Error

  /** A value of the context array handed to the logger: either the exception
      built as `new Exception(message, code, previous)` or a plain string. */
  datatype ContextValue =
    | WrappedException(message: string, code: int, previous: Throwable)
    | Text(text: string)

  datatype LogRecord = LogRecord(level: Level, message: string, context: map<string, ContextValue>)

  /** The exception, if any, that the `at`-th mutation of a queue throws. */
  function FaultAt(faults: map<nat, Throwable>, at: nat): (r: Option<Throwable>)
  {
    if at in faults then Some(faults[at]) else None
  }

  /** A job handed to the worker. `execution` is the oracle for its business
      logic; `executions` counts how often execute() has been called. */
  class Job {
    const id: JobId
    const execution: Execution
    var executions: nat

    constructor (id: JobId, execution: Execution)
      ensures this.id == id && this.execution == execution && executions == 0
    {
      this.id := id;
      this.execution := execution;
      executions := 0;
    }

    /** Runs the job once; `thrown` is the exception it throws, if any. */
    method Execute() returns (thrown: Option<Throwable>)
      modifies this
      ensures executions == old(executions) + 1
      ensures execution.Completes? <==> thrown.None?
      ensures execution.Throws? ==> thrown == Some(execution.exception)
    {
      executions := executions + 1;
      match execution {
        case Completes => thrown := None;
        case Throws(e) => thrown := Some(e);
      }
    }
  }

  /** What the worker's behaviour depends on in a queue: whether it implements
      the retry-aware RabbitMQ interface, its name, its fault oracle and how
      many mutations it has seen so far. */
  datatype QueueView = QueueView(retryAware: bool, name: string, faults: map<nat, Throwable>, performed: nat)

  /** A queue. `actions` records every delete and bury attempted on it, in
      order; the `n`-th attempt (counting from 0) throws `faults[n]` when `n`
      is a key of `faults`, and is recorded all the same. */
  class Queue {
    const name: string
    const retryAware: bool
    const faults: map<nat, Throwable>
    var actions: seq<Action>

    constructor (name: string, retryAware: bool, faults: map<nat, Throwable>)
      ensures this.name == name && this.retryAware == retryAware && this.faults == faults
      ensures actions == []
    {
      this.name := name;
      this.retryAware := retryAware;
      this.faults := faults;
      actions := [];
    }

    function View(): (v: QueueView)
      reads this
    {
      QueueView(retryAware, name, faults, |actions|)
    }

    function GetName(): (r: string)
    {
      name
    }

    /** Removes the job from the queue for good; may throw a transport error. */
    method Delete(job: JobId) returns (thrown: Option<Throwable>)
      modifies this
      ensures actions == old(actions) + [Action.Delete(job)]
      ensures thrown == FaultAt(faults, |old(actions)|)
    {
      thrown := FaultAt(faults, |actions|);
      actions := actions + [Action.Delete(job)];
    }

    /** Parks the job for a later attempt; may throw a transport error. */
    method Bury(job: JobId) returns (thrown: Option<Throwable>)
      modifies this
      ensures actions == old(actions) + [Action.Bury(job)]
      ensures thrown == FaultAt(faults, |old(actions)|)
    {
      thrown := FaultAt(faults, |actions|);
      actions := actions + [Action.Bury(job)];
    }
  }

  /** The retry counter, seen from outside. Its counting policy is not part of
      this model: `policy` answers each question from the questions asked
      before it, and every question asked is recorded in `consulted`. */
  class RetryCounter {
    const policy: (seq<Consult>, Consult) -> bool
    var consulted: seq<Consult>

    constructor (policy: (seq<Consult>, Consult) -> bool)
      ensures this.policy == policy && consulted == []
    {
      this.policy := policy;
      consulted := [];
    }

    method CanRetry(job: JobId, queueName: string) returns (retry: bool)
      modifies this
      ensures retry == policy(old(consulted), Consult(job, queueName))
      ensures consulted == old(consulted) + [Consult(job, queueName)]
    {
      retry := policy(consulted, Consult(job, queueName));
      consulted := consulted + [Consult(job, queueName)];
    }
  }

  /** A PSR logger reduced to the records it has received. */
  class Logger {
    var records: seq<LogRecord>

    constructor ()
      ensures records == []
    {
      records := [];
    }

    method Warning(message: string, context: map<string, ContextValue>)
      modifies this
      ensures records == old(records) + [LogRecord(Level.Warning, message, context)]
    {
      records := records + [LogRecord(Level.Warning, message, context)];
    }

    method Error(message: string, context: map<string, ContextValue>)
      modifies this
      ensures records == old(records) + [LogRecord(Level.Error, message, context)]
    {
      records := records + [LogRecord(Level.Error, message, context)];
    }
  }
}
