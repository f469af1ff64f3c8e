# RabbitMQ worker: per-job outcome and retry dispatch

This project models `RabbitMqWorker::processJob` and its helper
`createExceptionParams` from slm-queue-rabbitmq in Dafny, and proves what they
do. `processJob` is the step that turns one dequeued job into a queue
mutation, a log record and a status.

- If the queue does not implement `RabbitMqQueueInterface`, it returns `null`.
- Otherwise it runs the job. If the job completes, it deletes the job and
  returns `JOB_STATUS_SUCCESS`.
- On any throw, it asks the retry counter `canRetry(job, queue->getName())`.
  - If the counter says yes, it buries the job, logs a warning and returns
    `JOB_STATUS_FAILURE_RECOVERABLE`.
  - If the counter says no, it deletes the job, logs an error and returns
    `JOB_STATUS_FAILURE`.

The project has three modules:

- `Collaborators` (collaborators.dfy) holds the objects the worker calls. Their
  behaviour is fixed by oracles chosen when the objects are built.
  - `Job`: `execution` says whether `execute()` completes or throws.
  - `Queue`: `retryAware` stands for the `instanceof` guard. `faults` says
    which delete or bury attempt throws which exception. `actions` records
    every attempted mutation, in order.
  - `RetryCounter`: `policy` answers each `canRetry` from the earlier
    questions. Every question is recorded in `consulted`.
  - `Logger`: `records` holds every record received.
- `Worker` (worker.dfy) holds three things.
  - `CreateExceptionParams`, the log context builder.
  - `Dispatch`, a pure function giving everything one call of `processJob`
    does.
  - The class `RabbitMqWorker`. Its `ProcessJob` is the imperative step with
    the source's try/catch. It is proved to produce exactly `Dispatch`'s
    result and state changes.

  The lemmas beside them state the decision table.
- `RetryBudget` (retry_budget.dfy) runs the same job through several
  deliveries, using an assumed counting policy, `LimitPolicy`. The policy
  allows `limit` retries per (job, queue name) pair. It is a labelled
  hypothesis, because the real `MessageRetryCounter` is not part of this model.
  Under it the module proves two properties:
  - The first `limit` failures are recoverable and the next one is final.
  - Budgets on different queue names are independent.

Where the intent and the code differ, the model follows the code:

- A throw from the delete on the success path (line 53) happens inside the
  `try` block, so the `catch` block handles it like a job failure. The retry
  counter is asked, and the job is then buried or deleted a second time. So a
  call can apply two mutations: delete then bury, or delete then delete. It
  also logs the delete's exception and reports a failure status. In the model,
  the only exceptions that leave the call are mutation failures inside the
  `catch` block (lines 58 and 64). The source has another such path, listed
  under "Left out": building the wrapping exception at line 78 can itself
  throw.
- "Exactly one delete or bury per call" therefore holds only when no queue
  mutation throws. `ExactlyOneMutation` states it with that condition.
- The code logs the exception's message and trace as they are. Nothing makes
  them non-empty, so the model does not promise that.

## Model

| member | source | states |
|---|---|---|
| `Worker.RabbitMqWorker.ProcessJob` | src/Worker/RabbitMqWorker.php:45-69 | The returned completion and the changes to the job's run count, the queue's actions, the counter's questions and the logger's records are exactly those `Dispatch` gives. `Dispatch` is computed from the queue's state before the call and from the counter's answer to (job id, queue name) after its earlier questions. |
| `Worker.Dispatch` | src/Worker/RabbitMqWorker.php:45-69 | The job runs once if the queue is retry-aware and not at all otherwise. The counter is asked nothing, or once about (job id, queue name). A call makes at most one log record and at most two mutations, each on this job. |
| `Worker.CreateExceptionParams` | src/Worker/RabbitMqWorker.php:75-81 | The context has exactly the keys `exception` and `stack_trace`. `exception` is a new exception with the original's message and code and the original as its previous. `stack_trace` is the original's trace text. |
| `Worker.NotHandledIsInert` | src/Worker/RabbitMqWorker.php:47-49 | On a queue that is not retry-aware, the result is `null`. There is no execute, mutation, counter question or log record. |
| `Worker.HandledRunsJobOnce` | src/Worker/RabbitMqWorker.php:51-68 | On a retry-aware queue, the job runs exactly once. The result is never `null`, and at least one mutation is attempted. |
| `Worker.SuccessPath` | src/Worker/RabbitMqWorker.php:52-55 | If the job completes and the delete does not throw, the result is SUCCESS. There is one delete, no bury, no counter question and no log record. |
| `Worker.RecoverablePath` | src/Worker/RabbitMqWorker.php:56-61 | If the job throws, the counter says yes and the bury does not throw, the result is FAILURE_RECOVERABLE. There is one bury and no delete. The counter is asked once about (job, queue name). One warning is logged with the exception's message. |
| `Worker.ExhaustedPath` | src/Worker/RabbitMqWorker.php:64-67 | If the job throws, the counter says no and the delete does not throw, the result is FAILURE. There is one delete and no bury. The counter is asked once. One error is logged with the exception's message. |
| `Worker.ConsultedOnlyAfterThrow` | src/Worker/RabbitMqWorker.php:57 | The counter is asked if and only if the queue is retry-aware and something in the `try` block threw: the job, or the delete after it. |
| `Worker.ExactlyOneMutation` | src/Worker/RabbitMqWorker.php:51-68 | On a retry-aware queue whose first mutation does not throw, exactly one delete or bury of the job is applied, and no exception leaves the call. |
| `Worker.FailedDeleteIsRetried` | src/Worker/RabbitMqWorker.php:51-68 | If the success-path delete throws, the queue sees that delete followed by a bury (counter says yes) or a second delete (counter says no). The counter is asked once and the result is not SUCCESS. If the second mutation succeeds, the result is the matching failure status and the log carries the delete's exception message. |
| `Worker.CatchFaultPropagates` | src/Worker/RabbitMqWorker.php:51-68 | The `catch` block is entered because the job threw or because the delete after a completed job threw. In either case, if the bury or delete inside the `catch` block throws, that exception leaves the call and nothing is logged. That mutation is the last action the queue records. |
| `Worker.DiagnosticComplete` | src/Worker/RabbitMqWorker.php:56-80 | Each failure status comes with exactly one log record: a warning for a recoverable failure and an error otherwise. The caught exception is the job's own, or the exception from the delete after a completed job. The record's message is that exception's message. Its context is `CreateExceptionParams` of that exception: the logged cause is that exception, the wrapper keeps its code, and the trace is its trace. Every other completion logs nothing. |
| `Collaborators.Job.Execute` | src/Worker/RabbitMqWorker.php:52 | Running the job bumps its run count and throws exactly when its execution oracle says so. |
| `Collaborators.Queue.Delete` | src/Worker/RabbitMqWorker.php:53 | Appends a delete of the job to the queue's actions. It throws the fault planned for that attempt, if there is one. |
| `Collaborators.Queue.Bury` | src/Worker/RabbitMqWorker.php:58 | Appends a bury of the job to the queue's actions. It throws the fault planned for that attempt, if there is one. |
| `Collaborators.RetryCounter.CanRetry` | src/Worker/RabbitMqWorker.php:57 | Answers with the counter's policy applied to the earlier questions and records the question. |
| `Collaborators.Logger.Warning` | src/Worker/RabbitMqWorker.php:59 | Appends one warning record with the given message and context. |
| `Collaborators.Logger.Error` | src/Worker/RabbitMqWorker.php:65 | Appends one error record with the given message and context. |
| `Worker.RabbitMqWorker.constructor` | src/Worker/RabbitMqWorker.php:29-39 | The worker holds the given retry counter and logger. |
| `RetryBudget.BudgetExhaustion` | src/Worker/RabbitMqWorker.php:56-68 | Assumes the labelled limit policy. A job that keeps throwing with `k` retries left is buried on each of the next `k` deliveries, then deleted with FAILURE on the one after. |
| `RetryBudget.LimitPlusOneFailures` | src/Worker/RabbitMqWorker.php:56-68 | Assumes the labelled limit policy. With a fresh budget of `limit`, the first `limit` failures are FAILURE_RECOVERABLE and failure `limit + 1` is FAILURE. |
| `RetryBudget.ConsultsStayOnQueue` | src/Worker/RabbitMqWorker.php:57 | Deliveries on a queue only ever ask the counter about (job, that queue's name). |
| `RetryBudget.QueuesHaveSeparateBudgets` | src/Worker/RabbitMqWorker.php:56-68 | Assumes the labelled limit policy. Any number of deliveries on queue `a` leave the job's full budget on queue `b`. |

## Left out

- Worker.CreateExceptionParams: the model does not capture the case where `getCode()` returns something other than an int. PHP allows this for some exception classes; a PDO exception's code, for example, is a SQLSTATE string. In the model, an exception's code is always an int. In the source, `new Exception(...)` at line 78 would then throw inside the `catch` block, after the bury or delete and before the log, and that exception would leave `processJob`. The model has no such path.
- The retry counter's counting policy: its limit, its key and any reset. `MessageRetryCounter` is not part of this model. `canRetry` is an arbitrary function of the earlier questions. `LimitPolicy` is only an assumption, used by the lemmas in `RetryBudget`.
- The RabbitMQ transport behind `delete`, `bury` and `getName`: connection, acknowledgement and redelivery. Mutations are recorded actions that may throw. `getName` is taken not to throw.
- A throw from `canRetry` or from the logger is not modelled. Both are taken to return normally.
- The `AbstractWorker` loop and the event manager passed to the constructor are framework plumbing.
- The integer values of the `JOB_STATUS_*` constants belong to SlmQueue's `ProcessJobEvent`, which is not part of this model. The statuses are an enumeration.
- The log sink itself is not modelled. The logger is a list of records.
- PHP exception identity, the Throwable/Error class hierarchy and the real trace text are left out. An exception is its message, code, trace string and previous exception.
- The trace that the new wrapping `Exception` captures where it is built is not modelled. Only its constructor arguments are.
- What the job's `execute()` does is an oracle.
- Concurrency between workers that share a retry key is left out, because the modelled code is sequential.
