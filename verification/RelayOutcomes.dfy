/** What the relay's webhooks and its undisturbed jobs come to, in the record's own terms. */
module RelayOutcomes {
  import opened Wrappers
  import opened DeadlinePolicy
  import opened RelayStore
  import opened Outbox
  import opened Relay
  import opened RelayGates
  import opened RelayJobs

  /** A reported HTLC takes effect exactly on a quoted relay and with a deadline: it records
      both and queues the pay job. */
  lemma HtlcHeldIff(env: Env, s: System, h: string, deadline: Uint32)
    ensures var db' := Exec(env, s, HtlcHeld(h, deadline)).db;
            if h in s.db.sends && s.db.sends[h].status == Quoted && deadline > 0
            then && db'.sends == s.db.sends[h := s.db.sends[h].(status := Claimable, deadline := Some(deadline))]
                 && Queues(s.db.jobs, db'.jobs, JobKey(h, RelayPayOutbound), s.now)
            else db' == s.db
  {}

  /** A released preimage takes effect exactly when it hashes to the relay's hash and the
      relay's payment is out: it is recorded and the claim job queued. */
  lemma PaymentSentIff(env: Env, s: System, h: string, p: string)
    ensures var db' := Exec(env, s, PaymentSent(h, p)).db;
            if env.sha(p) == h && h in s.db.sends && (s.db.sends[h].status == OutboundPending || s.db.sends[h].status == OutboundPaid)
            then && db'.sends == s.db.sends[h := s.db.sends[h].(status := OutboundClaimed, preimage := Some(p))]
                 && Queues(s.db.jobs, db'.jobs, JobKey(h, RelayClaimInbound), s.now)
            else db' == s.db
  {}

  /** A quote is recorded exactly once per hash. */
  lemma QuoteIff(env: Env, s: System, h: string, invoice: string)
    ensures var db' := Exec(env, s, Quote(h, invoice)).db;
            && db'.jobs == s.db.jobs
            && db'.sends == if h in s.db.sends then s.db.sends else s.db.sends[h := SendRow(invoice, Quoted, None, None, None)]
  {}

  // ---------------------------------------------------------------- the outbox

  /** A worker is handed a relay job exactly when the job is pending and due, or its five
      minutes are over; it then has it for five minutes, to pay or to claim. */
  lemma TakeJobIff(env: Env, s: System, w: nat, key: JobKey)
    ensures var s' := Exec(env, s, TakeJob(w, key));
            if && w !in s.workers && key in s.db.jobs && (key.action == RelayPayOutbound || key.action == RelayClaimInbound)
               && var j := s.db.jobs[key];
                  || (j.status == JobStatus.Pending && j.availableAt <= s.now)
                  || (j.status == Processing && j.lockedUntil.Some? && j.lockedUntil.value <= s.now)
            then && s'.workers == s.workers[w := if key.action == RelayPayOutbound then PayLoad(key.paymentHash)
                                                 else ClaimLoad(key.paymentHash)]
                 && key in s'.db.jobs && s'.db.jobs == s.db.jobs[key := s'.db.jobs[key]] && s'.db.sends == s.db.sends
                 && var (j, j') := (s.db.jobs[key], s'.db.jobs[key]);
                    j' == j.(status := Processing, attempts := j.attempts + 1, lockedUntil := Some(s.now + 300))
            else s' == s
  {}

  /** A worker's report finishes its job, or makes it due again in fifteen seconds. */
  lemma ReportLeaves(env: Env, s: System, w: nat, a: Answer)
    requires w in s.workers && s.workers[w].Report? && JobKey(s.workers[w].hash, s.workers[w].action) in s.db.jobs
    ensures var key := JobKey(s.workers[w].hash, s.workers[w].action); var s' := Exec(env, s, Go(w, a));
            && s'.workers == s.workers - {w} && s'.db.sends == s.db.sends
            && key in s'.db.jobs && s'.db.jobs == s.db.jobs[key := s'.db.jobs[key]]
            && var (j, j') := (s.db.jobs[key], s'.db.jobs[key]);
               j' == if s.workers[w].ok then j.(status := Done, lockedUntil := None)
                     else j.(status := JobStatus.Pending, availableAt := s.now + 15, lockedUntil := None)
  {}

  // ---------------------------------------------------------------- the pay job

  predicate IsOpen(db: Db, h: string) {
    h in db.sends && (db.sends[h].status == Quoted || db.sends[h].status == Claimable || db.sends[h].status == OutboundPending)
  }

  /** Record `h` afterwards is `row`; nothing else in the store changed. */
  predicate Leaves(db: Db, db': Db, h: string, row: SendRow) {
    db'.jobs == db.jobs && db'.sends == db.sends[h := row]
  }

  /** The cancel was called once, and the record closed unless the store failed. */
  predicate Refunds(db: Db, o: Outcome, h: string, closed: SendRow, a: Answer) {
    && o.ok && o.claims == {}
    && o.cancels == (if a.cancelled then multiset{h} else multiset{})
    && o.uncancelled == (if a.cancelled then {} else {h})
    && o.unrecorded == (if a.store.record then {} else {h})
    && (if a.store.record then Leaves(db, o.db, h, closed) else o.db == db)
  }

  predicate Only(o: Outcome, payments: seq<Payment>, claims: set<Claim>) {
    o.payments == payments && o.claims == claims && o.cancels == multiset{} && o.uncancelled == {} && o.unrecorded == {}
  }

  /** A pay job that reads no record is retried; one whose relay is past paying is done. */
  lemma PayJobHasNothingToDo(env: Env, db: Db, now: int, h: string, a: Answer)
    requires !(a.store.load && IsOpen(db, h))
    ensures var o := Finish(env, db, now, PayLoad(h), a);
            Only(o, [], {}) && o.db == db && (o.ok <==> a.store.load && h in db.sends)
  {
    LoadingStops(env, db, now, h, a);
  }

  /** A pay job that is not let through refunds the relay. */
  lemma PayJobRefuses(env: Env, db: Db, now: int, h: string, a: Answer)
    requires a.store.load && IsOpen(db, h) && !LetsThrough(env, db.sends[h], a)
    ensures var o := Finish(env, db, now, PayLoad(h), a);
            o.payments == [] && Refunds(db, o, h, db.sends[h].(status := Failed, lastError := Some("refused")), a)
  {
    GateIff(env, db.sends[h], a);
    LoadingGoesOn(env, db, now, h, a);
    UndoOutcome(env, db, now, h, Failed, "refused", a);
  }

  lemma GateIff(env: Env, row: SendRow, a: Answer)
    ensures CheckGate(env, row, a) == if LetsThrough(env, row, a)
                                      then Some(Gate(row.deadline.value, a.height.value, env.finalDelta(row.outboundInvoice)))
                                      else None
  {
    if row.deadline.Some? && a.height.Some? {
      GateMeans(row.deadline.value, a.height.value, Required(env, row.outboundInvoice));
    }
  }

  /** The gate's answer to a worker that got this far. */
  function Seen(env: Env, row: SendRow, a: Answer): Gate
    requires LetsThrough(env, row, a)
  {
    Gate(row.deadline.value, a.height.value, env.finalDelta(row.outboundInvoice))
  }

  lemma GoesOnToTake(env: Env, db: Db, now: int, h: string, a: Answer)
    requires a.store.load && IsOpen(db, h) && LetsThrough(env, db.sends[h], a)
    ensures Finish(env, db, now, PayLoad(h), a) == Finish(env, db, now, PayTake(h, Seen(env, db.sends[h], a)), a)
  {
    GateIff(env, db.sends[h], a);
    LoadingGoesOn(env, db, now, h, a);
  }

  lemma TakeStandsBack(env: Env, db: Db, now: int, h: string, gate: Gate, a: Answer)
    requires IsOpen(db, h) && !(a.store.take && db.sends[h].status == Claimable)
    ensures var o := Finish(env, db, now, PayTake(h, gate), a);
            && Only(o, [], {}) && o.db == db
            && (o.ok <==> a.store.take && a.store.reload && db.sends[h].status == OutboundPending)
  {
    TakingOutcome(env, db, now, h, gate, a);
  }

  lemma PayJobTakes(env: Env, db: Db, now: int, h: string, a: Answer)
    requires a.store.load && IsOpen(db, h) && LetsThrough(env, db.sends[h], a)
    requires a.store.take && db.sends[h].status == Claimable
    ensures Finish(env, db, now, PayLoad(h), a)
            == SendOutcome(db.(sends := db.sends[h := db.sends[h].(status := OutboundPending)]), now, h, a)
               .(payments := [Payment(h, Seen(env, db.sends[h], a))])
  {
    var gate := Seen(env, db.sends[h], a);
    GoesOnToTake(env, db, now, h, a);
    TakingOutcome(env, db, now, h, gate, a);
    SendingOutcome(env, Advance(db, h, {Claimable}, OutboundPending, NO_UPDATE, now), now, h, gate, a);
  }

  /** A pay job that is let through pays exactly when it can take the payment, that is, when
      the relay is claimable. */
  lemma PayJobPays(env: Env, db: Db, now: int, h: string, a: Answer)
    requires a.store.load && IsOpen(db, h) && LetsThrough(env, db.sends[h], a)
    requires a.store.take && db.sends[h].status == Claimable
    ensures Finish(env, db, now, PayLoad(h), a).payments == [Payment(h, Seen(env, db.sends[h], a))]
  {
    PayJobTakes(env, db, now, h, a);
  }

  /** Without taking it, the job is done if the payment was taken before. */
  lemma PayJobStandsBack(env: Env, db: Db, now: int, h: string, a: Answer)
    requires a.store.load && IsOpen(db, h) && LetsThrough(env, db.sends[h], a)
    requires !(a.store.take && db.sends[h].status == Claimable)
    ensures var o := Finish(env, db, now, PayLoad(h), a);
            && Only(o, [], {}) && o.db == db
            && (o.ok <==> a.store.take && a.store.reload && db.sends[h].status == OutboundPending)
  {
    GoesOnToTake(env, db, now, h, a);
    TakeStandsBack(env, db, now, h, Seen(env, db.sends[h], a), a);
  }

  lemma SentIsRecorded(db: Db, now: int, h: string, a: Answer)
    requires h in db.sends && db.sends[h].status == OutboundPending
    ensures var o := SendOutcome(db, now, h, a);
            match a.send
            case Initiated =>
              && Only(o, [], {}) && (o.ok <==> a.store.record)
              && (if a.store.record then Leaves(db, o.db, h, db.sends[h].(status := OutboundPaid)) else o.db == db)
            case TransportError => Only(o, [], {}) && !o.ok && o.db == db
            case ReportedFailed =>
              o.payments == [] && Refunds(db, o, h, db.sends[h].(status := Cancelled, lastError := Some("failed")), a)
  {}

  /** What a payment leaves: started and recorded, or started and retried; unanswered and
      retried; or reported failed and refunded. */
  lemma PayJobAfterwards(env: Env, db: Db, now: int, h: string, a: Answer)
    requires a.store.load && IsOpen(db, h) && LetsThrough(env, db.sends[h], a)
    requires a.store.take && db.sends[h].status == Claimable
    ensures var o := Finish(env, db, now, PayLoad(h), a);
            var taken := db.(sends := db.sends[h := db.sends[h].(status := OutboundPending)]);
            match a.send
            case Initiated =>
              && Only(o, o.payments, {}) && (o.ok <==> a.store.record)
              && (if a.store.record then Leaves(db, o.db, h, db.sends[h].(status := OutboundPaid)) else o.db == taken)
            case TransportError => Only(o, o.payments, {}) && !o.ok && o.db == taken
            case ReportedFailed => Refunds(taken, o, h, db.sends[h].(status := Cancelled, lastError := Some("failed")), a)
  {
    PayJobTakes(env, db, now, h, a);
    SentIsRecorded(db.(sends := db.sends[h := db.sends[h].(status := OutboundPending)]), now, h, a);
  }

  // ---------------------------------------------------------------- the claim job

  /** A claim job calls the node exactly for a relay whose preimage arrived, and with that
      preimage; it settles the relay exactly when the node and then the store confirm. */
  lemma ClaimJobOutcome(env: Env, db: Db, now: int, h: string, a: Answer)
    ensures var o := Finish(env, db, now, ClaimLoad(h), a);
            if a.store.load && h in db.sends && db.sends[h].status == OutboundClaimed && db.sends[h].preimage.Some? && a.claimed
            then && Only(o, [], {Claim(h, db.sends[h].preimage.value)}) && (o.ok <==> a.store.record)
                 && (if a.store.record then Leaves(db, o.db, h, db.sends[h].(status := Settled)) else o.db == db)
            else && Only(o, [], {}) && o.db == db
                 && (o.ok <==> a.store.load && h in db.sends && db.sends[h].status in {Settled, Cancelled, Failed})
  {
    ClaimingOutcome(env, db, now, h, a);
  }
}
