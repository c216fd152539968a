/** The outbox table as the cron job uses it: every method takes the step of the same name of
    the lease model, and says what its caller can rely on. */
module OutboxStore {
  import opened Wrappers
  import opened Outbox
  import opened OutboxLease

  /** A job's outcome, and how long working on it took. */
  datatype JobOutcome = JobOutcome(ok: bool, seconds: nat)

  class OutboxTable {
    var jobs: map<JobKey, Job>
    var now: int
    ghost var holds: map<nat, Hold>
    ghost var handouts: seq<JobKey>

    ghost function State(): Floor
      reads this
    {
      Floor(jobs, now, holds, handouts)
    }

    constructor (start: int)
      ensures State() == Floor(map[], start, map[], [])
    {
      jobs, now, holds, handouts := map[], start, map[], [];
    }

    method Wait(seconds: nat)
      modifies this
      ensures State() == Step(old(State()), Tick(seconds))
    {
      now := now + seconds;
    }

    /** A new job is due at once; a job already stored is not touched. */
    method Enqueue(key: JobKey)
      modifies this
      ensures State() == Step(old(State()), OutboxLease.Enqueue(key))
      ensures key in jobs && (forall k :: k in old(jobs) ==> k in jobs && jobs[k] == old(jobs)[k])
      ensures key !in old(jobs) ==> Eligible(jobs[key], now) && jobs[key].attempts == 0
    {
      if key !in jobs {
        jobs := jobs[key := Job(|jobs| + 1, Pending, 0, now, None)];
      }
    }

    /** Hands out the eligible job with the lowest id, or none when none is eligible; it is
        eligible again from the end of its lease on, five minutes later. */
    method Claim(worker: nat) returns (claimed: Option<JobKey>)
      requires worker !in holds
      modifies this
      ensures claimed == None ==> State() == old(State()) && forall k :: k in jobs ==> !Eligible(jobs[k], now)
      ensures claimed.Some? ==>
                && State() == Step(old(State()), HandOut(worker, claimed.value)) && worker in holds
                && claimed.value in old(jobs) && Eligible(old(jobs)[claimed.value], now)
                && (forall k :: k in old(jobs) && Eligible(old(jobs)[k], now) ==> old(jobs)[claimed.value].id <= old(jobs)[k].id)
                && claimed.value in jobs && jobs[claimed.value].attempts == old(jobs)[claimed.value].attempts + 1
                && (forall t :: Eligible(jobs[claimed.value], t) <==> t >= now + 300)
    {
      claimed := None;
      var rest := jobs.Keys;
      while rest != {}
        invariant rest <= jobs.Keys
        invariant claimed.Some? ==> claimed.value in jobs && Eligible(jobs[claimed.value], now)
        invariant forall k :: k in jobs && k !in rest && Eligible(jobs[k], now) ==>
                    claimed.Some? && jobs[claimed.value].id <= jobs[k].id
        decreases rest
      {
        var k :| k in rest;
        if Eligible(jobs[k], now) && (claimed == None || jobs[k].id < jobs[claimed.value].id) {
          claimed := Some(k);
        }
        rest := rest - {k};
      }
      if claimed.Some? {
        var job := jobs[claimed.value];
        jobs := jobs[claimed.value := job.(status := Processing, attempts := job.attempts + 1,
                                           lockedUntil := Some(now + LEASE_SECONDS))];
        holds := holds[worker := Hold(claimed.value, now)];
        handouts := handouts + [claimed.value];
      }
    }

    /** The job is never due again, at any time, unless a report reopens it. */
    method MarkDone(worker: nat, key: JobKey)
      requires worker in holds && holds[worker].key == key
      modifies this
      ensures State() == Step(old(State()), ReportDone(worker))
      ensures key in old(jobs) ==> key in jobs && OnlyRescheduled(old(jobs), jobs, key) && forall t :: !Eligible(jobs[key], t)
    {
      if key in jobs {
        jobs := jobs[key := jobs[key].(status := Done, lockedUntil := None)];
      }
      holds := holds - {worker};
    }

    /** The job is due again from the end of the retry delay on, and not before. */
    method MarkRetry(worker: nat, key: JobKey)
      requires worker in holds && holds[worker].key == key
      modifies this
      ensures State() == Step(old(State()), ReportRetry(worker))
      ensures key in old(jobs) ==>
                && key in jobs && OnlyRescheduled(old(jobs), jobs, key)
                && forall t :: Eligible(jobs[key], t) <==> t >= now + 15
    {
      if key in jobs {
        jobs := jobs[key := jobs[key].(status := Pending, availableAt := now + RETRY_SECONDS, lockedUntil := None)];
      }
      holds := holds - {worker};
    }

    /** One cron tick: at most ten jobs, each handed out, worked on and reported. It stops
        early only when nothing is due. */
    method RunAsyncOrderOutbox(worker: nat, outcome: JobKey -> JobOutcome) returns (ghost es: seq<Event>)
      requires worker !in holds
      modifies this
      ensures State() == OutboxLease.Run(old(State()), es) && worker !in holds
      ensures Rounds(worker, es) <= 10
      ensures Rounds(worker, es) < 10 ==> forall k :: k in jobs ==> !Eligible(jobs[k], now)
    {
      es := [];
      ghost var start := State();
      for i := 0 to 10
        invariant State() == OutboxLease.Run(start, es) && worker !in holds && Rounds(worker, es) == i
      {
        var claimed := Claim(worker);
        if claimed == None {
          return;
        }
        var result := outcome(claimed.value);
        Wait(result.seconds);
        if result.ok {
          MarkDone(worker, claimed.value);
        } else {
          MarkRetry(worker, claimed.value);
        }
        ghost var report := if result.ok then ReportDone(worker) else ReportRetry(worker);
        AnotherRound(start, worker, es, claimed.value, result.seconds, report);
        es := es + [HandOut(worker, claimed.value), Tick(result.seconds), report];
      }
    }
  }

  /** Nothing but one job's schedule differs: no other job, and not its id or attempts. */
  ghost predicate OnlyRescheduled(before: Jobs, after: Jobs, key: JobKey)
    requires key in before && key in after
  {
    && after.Keys == before.Keys && (forall k :: k in before && k != key ==> after[k] == before[k])
    && after[key].id == before[key].id && after[key].attempts == before[key].attempts
  }

  /** Jobs handed out to this worker. */
  function Rounds(worker: nat, es: seq<Event>): nat {
    |set i | 0 <= i < |es| && es[i].HandOut? && es[i].worker == worker|
  }

  lemma AnotherRound(start: Floor, worker: nat, es: seq<Event>, key: JobKey, seconds: nat, report: Event)
    requires !report.HandOut?
    ensures var more := es + [HandOut(worker, key), Tick(seconds), report];
            && OutboxLease.Run(start, more) == Step(Step(Step(OutboxLease.Run(start, es), HandOut(worker, key)), Tick(seconds)), report)
            && Rounds(worker, more) == Rounds(worker, es) + 1
  {
    var more := es + [HandOut(worker, key), Tick(seconds), report];
    RunConcat(start, es, [HandOut(worker, key), Tick(seconds), report]);
    RunThree(OutboxLease.Run(start, es), HandOut(worker, key), Tick(seconds), report);
    assert (set i | 0 <= i < |more| && more[i].HandOut? && more[i].worker == worker)
        == (set i | 0 <= i < |es| && es[i].HandOut? && es[i].worker == worker) + {|es|};
  }
}
