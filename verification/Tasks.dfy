/** The task record that travels through Redis, and the reads that every component makes of it. */
module Tasks {
  import opened Wrappers

  type int32 = x: int | -0x8000_0000 <= x < 0x8000_0000

  /** Go's conversion of an integer to `int32`: keep the low 32 bits. */
  function ToInt32(x: int): int32
  {
    (x + 0x8000_0000) % 0x1_0000_0000 - 0x8000_0000
  }

  datatype TaskState =
    | Unspecified | Pending | Scheduled | Active | Completed | Failed | Retry | Dead | Cancelled

  /**
   `processAt` is in nanoseconds; an empty `queue` or `uniqueKey` means that the option was not set. `labels` is
   the JSON text of the labels.
   */
  datatype TaskOptions = TaskOptions(
    queue: string, maxRetry: int32, processAt: Option<int>, priority: int32, uniqueKey: string,
    labels: Option<string>)

  datatype TaskMetadata = TaskMetadata(
    state: TaskState, startedAt: Option<int>, retryCount: int32, lastError: string,
    workerID: string, streamMsgID: Option<nat>)

  const EMPTY_METADATA := TaskMetadata(Unspecified, None, 0, "", "", None)

  const DEFAULT_QUEUE := "default"

  const DEFAULT_MAX_RETRY: int32 := 3

  /** `options` and `metadata` are Go pointers, hence the two `Option` types. */
  datatype Task = Task(
    id: string, kind: string, payload: string,
    options: Option<TaskOptions>, metadata: Option<TaskMetadata>)
  {
    function Queue(): string
    {
      if options.Some? && options.value.queue != "" then options.value.queue else DEFAULT_QUEUE
    }

    function RetryCount(): int32
    {
      if metadata.Some? then metadata.value.retryCount else 0
    }

    /** The number of failures after which the task is dead. */
    function RetryLimit(): int32
    {
      if options.Some? && options.value.maxRetry > 0 then options.value.maxRetry else DEFAULT_MAX_RETRY
    }

    function Meta(): TaskMetadata
    {
      if metadata.Some? then metadata.value else EMPTY_METADATA
    }

    function WithState(state: TaskState): Task
    {
      this.(metadata := Some(Meta().(state := state)))
    }

    /** What processMessage hands to the handler. */
    function Received(msgID: nat): Task
    {
      this.(metadata := Some(Meta().(streamMsgID := Some(msgID))))
    }

    /** What processTask records before it calls the handler. */
    function Started(now: int, worker: string): Task
    {
      this.(metadata := Some(Meta().(state := Active, startedAt := Some(now), workerID := worker)))
    }

    /** What handleFailure records before it chooses between a retry and the dead letter queue. */
    function Failed(err: string): Task
    {
      this.(metadata := Some(Meta().(retryCount := ToInt32(RetryCount() + 1), lastError := err)))
    }

    /** What RetryFromDLQ puts back on the queue. */
    function Redriven(): Task
    {
      this.(metadata := Some(Meta().(state := Pending, retryCount := 0, lastError := "")))
    }

    /** Nothing but the metadata differs. */
    predicate SameWork(other: Task)
    {
      id == other.id && kind == other.kind && payload == other.payload && options == other.options
    }
  }
}
