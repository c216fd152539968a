/** The job outbox shared by both flows: one row per (payment hash, action), handed out
    under a five-minute lease. */
module Outbox {
  import opened Wrappers

  datatype Action =
    | RequestOutboundInvoice | SendOutboundPayment | ClaimInboundInvoice
    | RelayPayOutbound | RelayClaimInbound

  datatype JobKey = JobKey(paymentHash: string, action: Action)
  datatype JobStatus = Pending | Processing | Done
  datatype Job = Job(id: nat, status: JobStatus, attempts: nat, availableAt: int, lockedUntil: Option<int>)
  type Jobs = map<JobKey, Job>

  const LEASE_SECONDS := 300
  const RETRY_SECONDS := 15

  predicate Eligible(j: Job, now: int) {
    || (j.status == Pending && j.availableAt <= now)
    || (j.status == Processing && j.lockedUntil.Some? && j.lockedUntil.value <= now)
  }

  /** Inserting a job that already exists is ignored. */
  function Enqueued(jobs: Jobs, key: JobKey, now: int): Jobs {
    if key in jobs then jobs else jobs[key := Job(|jobs| + 1, Pending, 0, now, None)]
  }

  function HandedOut(j: Job, now: int): Job {
    j.(status := Processing, attempts := j.attempts + 1, lockedUntil := Some(now + LEASE_SECONDS))
  }

  /** Reports name the job, not the holder: they apply whatever its state is by now. */
  function MarkedDone(jobs: Jobs, key: JobKey): Jobs {
    if key in jobs then jobs[key := jobs[key].(status := Done, lockedUntil := None)] else jobs
  }

  function MarkedRetry(jobs: Jobs, key: JobKey, now: int): Jobs {
    if key in jobs
    then jobs[key := jobs[key].(status := Pending, availableAt := now + RETRY_SECONDS, lockedUntil := None)]
    else jobs
  }

  /** Job `key` is there afterwards, due at once unless it was there before; the others stay. */
  predicate Queues(jobs: Jobs, jobs': Jobs, key: JobKey, now: int) {
    && key in jobs' && jobs' == jobs[key := jobs'[key]]
    && (if key in jobs then jobs'[key] == jobs[key]
        else jobs'[key].status == Pending && jobs'[key].availableAt == now && jobs'[key].attempts == 0)
  }
}
