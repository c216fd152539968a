/** Workers taking jobs from the outbox: what the lease guarantees while every holder reports
    in time, and what is lost when one does not. */
module OutboxLease {
  import opened Wrappers
  import opened Outbox

  datatype Hold = Hold(key: JobKey, since: int)

  /** The table, the clock, which worker holds what since when, and every hand-out so far. */
  datatype Floor = Floor(jobs: Jobs, now: int, holds: map<nat, Hold>, handouts: seq<JobKey>)

  datatype Event =
    | Tick(seconds: nat)
    | Enqueue(key: JobKey)
    | HandOut(worker: nat, key: JobKey)
    | ReportDone(worker: nat)
    | ReportRetry(worker: nat)
    | Crash(worker: nat)

  /** An event that is not possible leaves the floor as it is. */
  function Step(f: Floor, e: Event): Floor {
    match e
    case Tick(seconds) => f.(now := f.now + seconds)
    case Enqueue(key) => f.(jobs := Enqueued(f.jobs, key, f.now))
    case HandOut(w, key) =>
      if w in f.holds || key !in f.jobs || !Eligible(f.jobs[key], f.now) then f
      else Floor(f.jobs[key := HandedOut(f.jobs[key], f.now)], f.now, f.holds[w := Hold(key, f.now)], f.handouts + [key])
    case ReportDone(w) =>
      if w !in f.holds then f else f.(jobs := MarkedDone(f.jobs, f.holds[w].key), holds := f.holds - {w})
    case ReportRetry(w) =>
      if w !in f.holds then f else f.(jobs := MarkedRetry(f.jobs, f.holds[w].key, f.now), holds := f.holds - {w})
    case Crash(w) => f.(holds := f.holds - {w})
  }

  function Run(f: Floor, es: seq<Event>): Floor
    decreases |es|
  {
    if es == [] then f else Run(Step(f, es[0]), es[1..])
  }

  /** Every holder is still inside its lease. */
  ghost predicate Punctual(f: Floor) {
    forall w :: w in f.holds ==> f.now < f.holds[w].since + LEASE_SECONDS
  }

  ghost predicate PunctualRun(f: Floor, es: seq<Event>)
    decreases |es|
  {
    Punctual(f) && (es == [] || PunctualRun(Step(f, es[0]), es[1..]))
  }

  function Times(keys: seq<JobKey>, key: JobKey): nat { multiset(keys)[key] }

  ghost predicate CountsHandouts(f: Floor) {
    forall k :: Times(f.handouts, k) == if k in f.jobs then f.jobs[k].attempts else 0
  }

  predicate IsLease(jobs: Jobs, hold: Hold) {
    hold.key in jobs && jobs[hold.key].status == Processing && jobs[hold.key].lockedUntil == Some(hold.since + LEASE_SECONDS)
  }

  /** Each hold is the job's current lease, and no job has two holders. */
  ghost predicate HoldsAreLeases(f: Floor) {
    && (forall w :: w in f.holds ==> IsLease(f.jobs, f.holds[w]))
    && (forall v, w :: v in f.holds && w in f.holds && v != w ==> f.holds[v].key != f.holds[w].key)
  }

  lemma HandoutCounted(f: Floor, key: JobKey)
    ensures forall k :: Times(f.handouts + [key], k) == Times(f.handouts, k) + if k == key then 1 else 0
  {}

  lemma StepCounts(f: Floor, e: Event)
    requires CountsHandouts(f)
    ensures CountsHandouts(Step(f, e))
  {
    if e.HandOut? {
      HandoutCounted(f, e.key);
    }
  }

  /** An eligible job is nobody's lease. */
  lemma HandOutKeepsLeases(f: Floor, w: nat, key: JobKey)
    requires HoldsAreLeases(f) && Punctual(f)
    ensures HoldsAreLeases(Step(f, HandOut(w, key)))
  {
    if key in f.jobs && Eligible(f.jobs[key], f.now) {
      assert forall v :: v in f.holds ==> f.holds[v].key != key;
    }
  }

  /** A report touches only the job its holder alone held. */
  lemma ReportKeepsLeases(f: Floor, w: nat)
    requires HoldsAreLeases(f)
    ensures HoldsAreLeases(Step(f, ReportDone(w))) && HoldsAreLeases(Step(f, ReportRetry(w)))
  {}

  lemma OtherKeepsLeases(f: Floor, e: Event)
    requires HoldsAreLeases(f) && (e.Tick? || e.Enqueue? || e.Crash?)
    ensures HoldsAreLeases(Step(f, e))
  {}

  lemma StepKeepsLeases(f: Floor, e: Event)
    requires HoldsAreLeases(f) && Punctual(f)
    ensures HoldsAreLeases(Step(f, e))
  {
    match e
    case HandOut(w, key) => HandOutKeepsLeases(f, w, key);
    case ReportDone(w) => ReportKeepsLeases(f, w);
    case ReportRetry(w) => ReportKeepsLeases(f, w);
    case _ => OtherKeepsLeases(f, e);
  }

  /** However late workers report, a job's attempts are exactly the times it was handed out. */
  lemma {:induction false} AttemptsCountHandouts(f: Floor, es: seq<Event>)
    requires CountsHandouts(f)
    ensures CountsHandouts(Run(f, es))
    decreases |es|
  {
    if es != [] {
      StepCounts(f, es[0]);
      AttemptsCountHandouts(Step(f, es[0]), es[1..]);
    }
  }

  /** While every holder reports inside its lease, no two workers ever hold the same job. */
  lemma {:induction false} LeaseExclusion(f: Floor, es: seq<Event>)
    requires HoldsAreLeases(f) && PunctualRun(f, es)
    ensures HoldsAreLeases(Run(f, es))
    decreases |es|
  {
    if es != [] {
      StepKeepsLeases(f, es[0]);
      LeaseExclusion(Step(f, es[0]), es[1..]);
    }
  }

  ghost predicate Unheld(f: Floor, key: JobKey) {
    forall w :: w in f.holds ==> f.holds[w].key != key
  }

  lemma StepKeepsUnheld(f: Floor, e: Event, key: JobKey)
    requires key in f.jobs && f.jobs[key].status == Done && Unheld(f, key)
    ensures var f' := Step(f, e);
            && Unheld(f', key) && key in f'.jobs && f'.jobs[key] == f.jobs[key]
            && Times(f'.handouts, key) == Times(f.handouts, key)
  {
    if e.HandOut? {
      HandoutCounted(f, e.key);
    }
  }

  /** A done job nobody holds any more stays as it is and is never handed out again, however
      late other workers report. */
  lemma {:induction false} UnheldDoneIsFinal(f: Floor, es: seq<Event>, key: JobKey)
    requires key in f.jobs && f.jobs[key].status == Done && Unheld(f, key)
    ensures key in Run(f, es).jobs && Run(f, es).jobs[key] == f.jobs[key]
    ensures Times(Run(f, es).handouts, key) == Times(f.handouts, key)
    decreases |es|
  {
    if es != [] {
      StepKeepsUnheld(f, es[0], key);
      UnheldDoneIsFinal(Step(f, es[0]), es[1..], key);
    }
  }

  ghost predicate StaysDone(f: Floor, es: seq<Event>, key: JobKey) {
    key in Run(f, es).jobs && Run(f, es).jobs[key].status == Done
  }

  /** A done job stays done in every run exactly when nobody holds it. */
  lemma DoneIsFinalIff(f: Floor, key: JobKey)
    requires key in f.jobs && f.jobs[key].status == Done
    ensures (forall es: seq<Event> :: StaysDone(f, es, key)) <==> Unheld(f, key)
  {
    if Unheld(f, key) {
      forall es: seq<Event> ensures StaysDone(f, es, key) {
        UnheldDoneIsFinal(f, es, key);
      }
    } else {
      var w :| w in f.holds && f.holds[w].key == key;
      var es := [ReportRetry(w)];
      assert es[1..] == [] && Run(f, es) == Step(f, ReportRetry(w));
      assert !StaysDone(f, es, key);
    }
  }

  /** In particular a job done while every hold is a current lease, as in a punctual run. */
  lemma DoneIsFinal(f: Floor, es: seq<Event>, key: JobKey)
    requires HoldsAreLeases(f) && key in f.jobs && f.jobs[key].status == Done
    ensures key in Run(f, es).jobs && Run(f, es).jobs[key] == f.jobs[key]
    ensures Times(Run(f, es).handouts, key) == Times(f.handouts, key)
  {
    assert forall w :: w in f.holds ==> IsLease(f.jobs, f.holds[w]);
    UnheldDoneIsFinal(f, es, key);
  }

  /** Ids are handed out in the order jobs arrive. */
  ghost predicate IdsArrive(f: Floor) {
    && (forall k :: k in f.jobs ==> 1 <= f.jobs[k].id <= |f.jobs|)
    && (forall j, k :: j in f.jobs && k in f.jobs && j != k ==> f.jobs[j].id != f.jobs[k].id)
  }

  lemma EnqueuedAdds(jobs: Jobs, key: JobKey, now: int)
    requires key !in jobs
    ensures var jobs' := Enqueued(jobs, key, now);
            && jobs'.Keys == jobs.Keys + {key} && |jobs'| == |jobs| + 1 && jobs'[key].id == |jobs| + 1
            && forall k :: k in jobs ==> jobs'[k] == jobs[k]
  {
    var jobs' := Enqueued(jobs, key, now);
    assert jobs'.Keys == jobs.Keys + {key} && |jobs'| == |jobs'.Keys| && |jobs| == |jobs.Keys|;
  }

  lemma EnqueueKeepsIds(f: Floor, key: JobKey)
    requires IdsArrive(f) && key !in f.jobs
    ensures var f' := Step(f, Enqueue(key));
            && IdsArrive(f') && f'.jobs.Keys == f.jobs.Keys + {key} && (forall k :: k in f.jobs ==> f'.jobs[k] == f.jobs[k])
            && f'.jobs[key].id == |f.jobs| + 1
  {
    var f' := Step(f, Enqueue(key));
    EnqueuedAdds(f.jobs, key, f.now);
    forall k | k in f'.jobs ensures 1 <= f'.jobs[k].id <= |f'.jobs| {
      assert k != key ==> f'.jobs[k] == f.jobs[k];
    }
  }

  lemma OthersKeepIds(f: Floor, e: Event)
    requires e.Enqueue? ==> e.key in f.jobs
    ensures var f' := Step(f, e); f'.jobs.Keys == f.jobs.Keys && forall k :: k in f.jobs ==> f'.jobs[k].id == f.jobs[k].id
  {}

  lemma StepKeepsIds(f: Floor, e: Event)
    requires IdsArrive(f)
    ensures var f' := Step(f, e);
            && IdsArrive(f') && (forall k :: k in f.jobs ==> k in f'.jobs && f'.jobs[k].id == f.jobs[k].id)
            && (forall j, k :: j in f.jobs && k in f'.jobs && k !in f.jobs ==> f'.jobs[j].id < f'.jobs[k].id)
  {
    if e.Enqueue? && e.key !in f.jobs {
      EnqueueKeepsIds(f, e.key);
    } else {
      OthersKeepIds(f, e);
      assert |Step(f, e).jobs| == |Step(f, e).jobs.Keys| && |f.jobs| == |f.jobs.Keys|;
    }
  }

  /** First come: a job that was there keeps its id, and every job that arrives later has a
      higher one. The table hands out the lowest id that is due. */
  lemma {:induction false} LaterJobsComeAfter(f: Floor, es: seq<Event>, early: JobKey, late: JobKey)
    requires IdsArrive(f) && early in f.jobs
    ensures IdsArrive(Run(f, es)) && early in Run(f, es).jobs && Run(f, es).jobs[early].id == f.jobs[early].id
    ensures late !in f.jobs && late in Run(f, es).jobs ==> Run(f, es).jobs[early].id < Run(f, es).jobs[late].id
    decreases |es|
  {
    if es != [] {
      var f1 := Step(f, es[0]);
      StepKeepsIds(f, es[0]);
      LaterJobsComeAfter(f1, es[1..], early, late);
      if late in f1.jobs {
        LaterJobsComeAfter(f1, es[1..], late, early);
      }
    }
  }

  /** No lease and no retry delay reaches further than the lease. */
  ghost predicate WaitsAreBounded(f: Floor) {
    forall k :: k in f.jobs ==>
      && (f.jobs[k].status == Pending ==> f.jobs[k].availableAt <= f.now + RETRY_SECONDS)
      && (f.jobs[k].status == Processing ==> f.jobs[k].lockedUntil.Some? && f.jobs[k].lockedUntil.value <= f.now + LEASE_SECONDS)
  }

  lemma StepKeepsWaits(f: Floor, e: Event)
    requires WaitsAreBounded(f)
    ensures WaitsAreBounded(Step(f, e))
  {}

  /** A job that is not done is never stuck: whatever its holders did, five minutes without a
      further event make it eligible again. */
  lemma {:induction false} UndoneJobComesBack(f: Floor, es: seq<Event>, key: JobKey)
    requires WaitsAreBounded(f) && key in Run(f, es).jobs && Run(f, es).jobs[key].status != Done
    ensures Eligible(Run(f, es).jobs[key], Run(f, es).now + 300)
    decreases |es|
  {
    if es != [] {
      StepKeepsWaits(f, es[0]);
      UndoneJobComesBack(Step(f, es[0]), es[1..], key);
    }
  }

  /** Without punctuality a finished job comes back: the late retry report of a worker that
      outlived its lease makes a done job pending, and it is handed out once more. */
  lemma LateRetryRevivesDoneJob(f: Floor, late: nat, next: nat, key: JobKey)
    requires late in f.holds && f.holds[late].key == key && next !in f.holds
    requires key in f.jobs && f.jobs[key].status == Done
    ensures var after := Run(f, [ReportRetry(late), Tick(RETRY_SECONDS), HandOut(next, key)]);
            && next in after.holds && after.holds[next].key == key
            && Times(after.handouts, key) == Times(f.handouts, key) + 1
  {
    RunThree(f, ReportRetry(late), Tick(RETRY_SECONDS), HandOut(next, key));
    HandoutCounted(f, key);
  }

  /** And a run gets there: the first of two workers holds on while the second finishes. */
  lemma DoneJobStillHeld(key: JobKey)
    ensures var f := Run(Floor(map[], 0, map[], []),
                         [Enqueue(key), HandOut(1, key), Tick(LEASE_SECONDS), HandOut(2, key), ReportDone(2)]);
            && 1 in f.holds && f.holds[1].key == key && 2 !in f.holds && key in f.jobs && f.jobs[key].status == Done
  {
    var f1 := Step(Floor(map[], 0, map[], []), Enqueue(key));
    var f2 := Step(f1, HandOut(1, key));
    assert f2.jobs[key].lockedUntil == Some(LEASE_SECONDS) && f2.holds == map[1 := Hold(key, 0)];
    var f4 := Step(Step(f2, Tick(LEASE_SECONDS)), HandOut(2, key));
    assert f4.holds[2].key == key && f4.holds[1].key == key;
    RunFive(Floor(map[], 0, map[], []), Enqueue(key), HandOut(1, key), Tick(LEASE_SECONDS), HandOut(2, key), ReportDone(2));
  }

  lemma {:induction false} RunConcat(f: Floor, a: seq<Event>, b: seq<Event>)
    ensures Run(f, a + b) == Run(Run(f, a), b)
    decreases |a|
  {
    if a == [] {
      assert a + b == b;
    } else {
      assert (a + b)[0] == a[0] && (a + b)[1..] == a[1..] + b;
      RunConcat(Step(f, a[0]), a[1..], b);
    }
  }

  lemma RunThree(f: Floor, a: Event, b: Event, c: Event)
    ensures Run(f, [a, b, c]) == Step(Step(Step(f, a), b), c)
  {
    assert [a, b, c][1..] == [b, c] && [b, c][1..] == [c];
    var g := Step(Step(f, a), b);
    assert Run(g, [c]) == Step(g, c);
  }

  lemma RunFive(f: Floor, a: Event, b: Event, c: Event, d: Event, e: Event)
    ensures Run(f, [a, b, c, d, e]) == Step(Step(Step(Step(Step(f, a), b), c), d), e)
  {
    assert [a, b, c, d, e][1..] == [b, c, d, e] && [b, c, d, e][1..] == [c, d, e];
    RunThree(Step(Step(f, a), b), c, d, e);
  }
}
