/** The job envelope and its lifecycle graph (job.go). */
module Jobs {

  /** `Absent` is the empty pseudo-state of a job that is not yet enqueued. */
  datatype Phase = Absent | Scheduled | Retry | Pending | Active | Completed | Dead

  function ValidTransitions(from: Phase): seq<Phase> {
    match from
    case Absent => [Pending, Scheduled]
    case Scheduled => [Pending]
    case Retry => [Pending]
    case Pending => [Active]
    case Active => [Completed, Retry, Dead, Pending]
    case Completed => []
    case Dead => [Pending]
  }

  predicate CanTransition(from: Phase, to: Phase) {
    to in ValidTransitions(from)
  }

  const DEFAULT_MAX_ATTEMPTS := 25
  /** The zero `time.Time`, 0001-01-01T00:00:00Z, in Unix milliseconds. */
  const ZERO_TIME := -62_135_596_800_000
  const HOUR_MS := 3_600_000

  datatype Job = Job(
    id: string,
    queue: string,
    kind: string,
    payload: string,
    attempt: int,
    maxAttempts: int,
    recoveries: int,
    state: Phase,
    owner: string,
    uniqueKey: string,
    uniqueTTL: int,
    lastErr: string,
    enqueuedAt: int,
    runAt: int,
    startedAt: int,
    deadline: int)
  {
    /** No attempt is left. */
    predicate Exhausted() { attempt >= maxAttempts }
  }
}
