/** The relay protocol's promises, over every run from an empty service. */
module RelayTheorems {
  import opened Wrappers
  import opened DeadlinePolicy
  import opened RelayStore
  import opened Outbox
  import opened Relay
  import opened RelayRuns
  import opened RelayChains

  /** No interleaving loses work: a held HTLC has a recorded deadline and an unfinished pay
      job, unless the store did not take an undo of it; a released preimage is on record,
      matches, and has an unfinished claim job; and the claim job finishes only when the relay
      is settled. */
  lemma RelayNeverLosesWork(env: Env, es: seq<Event>, h: string)
    ensures var s := Run(env, IDLE, es); var db := s.db;
            && (StatusIn(db, h, {Claimable}) ==>
                  && (Undone(db, PayKey(h)) || h in s.unrecorded)
                  && db.sends[h].deadline.Some? && db.sends[h].deadline.value > 0)
            && (StatusIn(db, h, {OutboundClaimed}) ==>
                  Undone(db, ClaimKey(h)) && db.sends[h].preimage.Some? && env.sha(db.sends[h].preimage.value) == h)
            && (ClaimKey(h) in db.jobs && db.jobs[ClaimKey(h)].status == Done ==> StatusIn(db, h, {Settled}))
  {
    IdleInv(env);
    RunKeeps(env, IDLE, es);
    var s := Run(env, IDLE, es);
    assert RecordInv(env, s.db, s.claims, h) && HeldInv(s, h);
  }

  /** At most one payment is ever started per payment hash. */
  lemma AtMostOnePayment(env: Env, es: seq<Event>, i: nat, j: nat)
    requires i < |Run(env, IDLE, es).payments| && j < |Run(env, IDLE, es).payments|
    requires Run(env, IDLE, es).payments[i].hash == Run(env, IDLE, es).payments[j].hash
    ensures i == j
  {
    IdleInv(env);
    RunKeeps(env, IDLE, es);
  }

  /** A relay that took on its payment started it, is about to, or lost the worker that was;
      and never two of these. */
  lemma TakenPaymentIsAccountedFor(env: Env, es: seq<Event>, h: string)
    ensures var s := Run(env, IDLE, es);
            && (StatusIn(s.db, h, TAKEN) ==> Paid(s, h) || Sending(s, h) || h in s.lost)
            && (Paid(s, h) ==> !Sending(s, h) && h !in s.lost && PastTake(s.db, h))
            && (Sending(s, h) ==> h !in s.lost)
  {
    IdleInv(env);
    RunKeeps(env, IDLE, es);
    assert PaymentInv(Run(env, IDLE, es), h);
  }

  /** Every payment started with strictly more blocks to the recorded deadline than the final
      delta of the recorded invoice plus the claim margin. */
  lemma PaymentsHaveSlack(env: Env, es: seq<Event>, i: nat)
    requires i < |Run(env, IDLE, es).payments|
    ensures var s := Run(env, IDLE, es); var p := s.payments[i];
            && p.hash in s.db.sends && s.db.sends[p.hash].deadline == Some(p.gate.deadline)
            && p.gate.finalDelta == env.finalDelta(s.db.sends[p.hash].outboundInvoice)
            && (env.margin + p.gate.finalDelta < TWO_64 ==>
                  p.gate.deadline - p.gate.height > env.margin + p.gate.finalDelta)
  {
    IdleInv(env);
    RunKeeps(env, IDLE, es);
    var p := Run(env, IDLE, es).payments[i];
    assert GateWasOpen(env, Run(env, IDLE, es).db, p.hash, p.gate);
    GateMeans(p.gate.deadline, p.gate.height, RelayRequired(env.margin, p.gate.finalDelta));
  }

  /** A settled relay's inbound HODL was claimed, with a preimage of the payment hash, after
      the payment was taken on. */
  lemma SettledMeansClaimed(env: Env, es: seq<Event>, h: string)
    requires StatusIn(Run(env, IDLE, es).db, h, {Settled})
    ensures var s := Run(env, IDLE, es);
            && (exists p :: Claim(h, p) in s.claims && env.sha(p) == h)
            && (Paid(s, h) || Sending(s, h) || h in s.lost)
  {
    IdleInv(env);
    RunKeeps(env, IDLE, es);
    var s := Run(env, IDLE, es);
    assert RecordInv(env, s.db, s.claims, h) && PaymentInv(s, h);
  }

  // ---------------------------------------------------------------- forward only

  /** The later state has lost nothing of the earlier one. */
  ghost predicate Forward(s: System, s': System) {
    && DbForward(s.db, s'.db) && s.payments <= s'.payments && s.claims <= s'.claims && s.cancels <= s'.cancels
    && s.uncancelled <= s'.uncancelled && s.unrecorded <= s'.unrecorded && s.lost <= s'.lost
  }

  lemma MovingForward(env: Env, s: System, w: nat, m: Moved)
    requires w in s.workers && Legal(env, s, s.workers[w], m)
    ensures Forward(s, Moving(s, w, m))
  {}

  lemma WebhookForward(env: Env, s: System, e: Event)
    requires e.HtlcHeld? || e.PaymentSent?
    ensures Forward(s, Exec(env, s, e))
  {
    match e
    case HtlcHeld(h, deadline) =>
      AdvanceForward(s.db, h, {Quoted}, Claimable, Update(Some(deadline), None, None, Some(RelayPayOutbound)), s.now);
    case PaymentSent(h, p) =>
      AdvanceForward(s.db, h, {OutboundPending, OutboundPaid}, OutboundClaimed,
                     Update(None, Some(p), None, Some(RelayClaimInbound)), s.now);
  }

  lemma StepForward(env: Env, s: System, e: Event)
    requires SystemInv(env, s)
    ensures Forward(s, Exec(env, s, e))
  {
    if e.HtlcHeld? || e.PaymentSent? {
      WebhookForward(env, s, e);
    } else if e.Go? && e.worker in s.workers && !s.workers[e.worker].Report? {
      var pc := s.workers[e.worker];
      assert WorkerInv(env, s.db, s.claims, pc) && RecordInv(env, s.db, s.claims, pc.hash);
      StepLegal(env, s, pc, e.answer);
      MovingForward(env, s, e.worker, WorkerStep(env, s.db, s.now, pc, e.answer));
    }
  }

  /** Statuses only rise, terminal records never change, a recorded deadline stays, no record
      or job disappears, and no payment, claim or cancel is forgotten. */
  lemma {:induction false} StatusOnlyRises(env: Env, s: System, es: seq<Event>)
    requires SystemInv(env, s)
    ensures Forward(s, Run(env, s, es))
    decreases |es|
  {
    if es != [] {
      var next := Exec(env, s, es[0]);
      StepForward(env, s, es[0]);
      StepKeeps(env, s, es[0]);
      StatusOnlyRises(env, next, es[1..]);
      ForwardTransitive(s.db, next.db, Run(env, next, es[1..]).db);
    }
  }

  lemma ForwardTransitive(a: Db, b: Db, c: Db)
    requires DbForward(a, b) && DbForward(b, c)
    ensures DbForward(a, c)
  {}

  /** A webhook that had its effect can be replayed at any later time and changes nothing. */
  lemma ReplayChangesNothing(env: Env, s: System, e: Event, later: seq<Event>)
    requires SystemInv(env, s) && (e.HtlcHeld? || e.PaymentSent?)
    ensures Exec(env, s, e).db == s.db
            || var s' := Run(env, Exec(env, s, e), later); Exec(env, s', e) == s'
  {
    if Exec(env, s, e).db != s.db {
      StepKeeps(env, s, e);
      StatusOnlyRises(env, Exec(env, s, e), later);
    }
  }

  /** The node only ever confirms a claim for a relay whose preimage arrived, and the record of such a
      relay is never cancelled or failed. */
  lemma ClaimedRecordStands(env: Env, es: seq<Event>, h: string, p: string)
    requires Claim(h, p) in Run(env, IDLE, es).claims
    ensures StatusIn(Run(env, IDLE, es).db, h, {OutboundClaimed, Settled}) && env.sha(p) == h
  {
    IdleInv(env);
    RunKeeps(env, IDLE, es);
    var s := Run(env, IDLE, es);
    assert ClaimKey(Claim(h, p).hash) in s.db.jobs;
    assert RecordInv(env, s.db, s.claims, h);
  }

  /** And the other way round: once a relay is cancelled or failed, no claim of its HODL is
      ever confirmed, not even when the third party's preimage arrives after all. */
  lemma RefundedIsNeverCollected(env: Env, s: System, h: string, later: seq<Event>, p: string)
    requires SystemInv(env, s) && StatusIn(s.db, h, {Cancelled, Failed})
    ensures var s' := Run(env, s, later);
            h in s'.db.sends && s'.db.sends[h] == s.db.sends[h] && Claim(h, p) !in s'.claims
  {
    StatusOnlyRises(env, s, later);
    RunKeeps(env, s, later);
    var s' := Run(env, s, later);
    assert RecordInv(env, s'.db, s'.claims, h);
    assert Claim(h, p) in s'.claims ==> ClaimKey(Claim(h, p).hash) in s'.db.jobs;
  }

  // ---------------------------------------------------------------- what can go wrong

  /** A worker that dies between taking the payment and sending it strands the relay: it is
      outbound_pending and no continuation whatever starts its payment. */
  lemma CrashStrandsRelay(env: Env, s: System, w: nat, a: Answer, later: seq<Event>)
    requires SystemInv(env, s) && w in s.workers && s.workers[w].PayTake? && a.store.take
    requires StatusIn(s.db, s.workers[w].hash, {Claimable})
    ensures var h := s.workers[w].hash; var after := Exec(env, Exec(env, s, Go(w, a)), Crash(w));
            StatusIn(after.db, h, {OutboundPending}) && !Paid(Run(env, after, later), h)
  {
    var h := s.workers[w].hash;
    var taken := Exec(env, s, Go(w, a));
    var after := Exec(env, taken, Crash(w));
    TakeStep(env, s, w, a, h, s.workers[w].gate);
    assert taken.workers[w].PaySend? && h in after.lost;
    StepKeeps(env, s, Go(w, a));
    StepKeeps(env, taken, Crash(w));
    StatusOnlyRises(env, after, later);
    RunKeeps(env, after, later);
    assert PaymentInv(Run(env, after, later), h);
  }

  /** Nor does the retry the outbox schedules help: a pay job that finds the relay already
      outbound_pending passes the gate and reports done without sending anything. */
  lemma RetryReportsDoneWithoutSending(env: Env, s: System, w: nat, a: Answer)
    requires w in s.workers && s.workers[w].PayLoad? && StatusIn(s.db, s.workers[w].hash, {OutboundPending})
    requires CheckGate(env, s.db.sends[s.workers[w].hash], a).Some? && a.store == STORED
    ensures var s' := Exec(env, Exec(env, Exec(env, Exec(env, s, Go(w, a)), Go(w, a)), Go(w, a)), Go(w, a));
            s'.db == s.db && s'.payments == s.payments && w in s'.workers
            && s'.workers[w] == Report(s.workers[w].hash, RelayPayOutbound, true)
  {
    var h := s.workers[w].hash;
    var s1 := Exec(env, s, Go(w, a));
    LoadStep(env, s, w, a, h);
    var s2 := Exec(env, s1, Go(w, a));
    GateStep(env, s1, w, a, h, s.db.sends[h]);
    var s3 := Exec(env, s2, Go(w, a));
    assert s3.workers[w] == PayRecheck(h) && s3.db == s.db && s3.payments == s.payments;
  }

  /** Any refusal of the gate on a retry, be it a node outage, an invoice that no longer
      decodes or a deadline too close, leads to a cancel and to failing the pending relay. The
      relay is failed whether or not the cancel takes effect, and when the store does not take
      that, the job reports done all the same. */
  lemma RefusalFailsPendingRelay(env: Env, s: System, w: nat, a: Answer)
    requires w in s.workers && s.workers[w].PayGate? && CheckGate(env, s.workers[w].row, a) == None
    requires StatusIn(s.db, s.workers[w].hash, {Claimable, OutboundPending})
    ensures var h := s.workers[w].hash; var s' := Exec(env, Exec(env, Exec(env, s, Go(w, a)), Go(w, a)), Go(w, a));
            && s'.cancels == s.cancels + (if a.cancelled then multiset{h} else multiset{})
            && s'.uncancelled == s.uncancelled + (if a.cancelled then {} else {h})
            && (if a.store.record then StatusIn(s'.db, h, {Failed}) else s'.db == s.db)
            && w in s'.workers && s'.workers[w] == PayDone(h, true) && s'.payments == s.payments
  {
    var h := s.workers[w].hash;
    var s1 := Exec(env, s, Go(w, a));
    GateStep(env, s, w, a, h, s.workers[w].row);
    CancelStep(env, s1, w, a, h, Failed, "refused");
    RecordStep(env, Exec(env, s1, Go(w, a)), w, a, h, Failed, "refused");
  }
}
