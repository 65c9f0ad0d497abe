/** The slice of the evaluation-job record that the polling core reads. */
module Jobs {
  import opened Wrappers

  /** The four values the job table allows for `status`. */
  datatype JobStatus = Pending | InProgress | Completed | Failed

  /** Completed and failed jobs are finished; the poll loop stops on them. */
  predicate IsTerminal(s: JobStatus) {
    s == Completed || s == Failed
  }

  /** The stored results document, kept opaque. */
  type Payload = string

  /** A job row as one read returns it. Times are integer milliseconds since
      the epoch; `completedAt` is the already formatted completion time. */
  datatype Job = Job(
    id: string,
    status: JobStatus,
    createdAt: Option<int>,
    results: Option<Payload>,
    errorMessage: Option<string>,
    completedAt: Option<string>)

  /** What one lookup of the job by id yields: the row, no row, or a failure
      of the database itself. */
  datatype ReadOutcome = Found(job: Job) | Missing | ReadError
}
