/** Runs from the empty service that end badly, each an instance of the exact conditions. */
module RelayMishaps {
  import opened Wrappers
  import opened DeadlinePolicy
  import opened RelayStore
  import opened Outbox
  import opened Relay
  import opened RelayRuns
  import opened RelayChains
  import opened RelayTheorems
  import opened RelayRefunds

  /** Quoted and held. */
  lemma StartsHeld(env: Env, h: string, invoice: string, deadline: Uint32) returns (es: seq<Event>)
    requires deadline > 0
    ensures var s := Run(env, IDLE, es);
            && SystemInv(env, s) && StatusIn(s.db, h, {Claimable}) && Undone(s.db, PayKey(h)) && LeaseEnds(s.db, PayKey(h))
            && s.db.sends[h].deadline == Some(deadline) && s.db.sends[h].outboundInvoice == invoice
            && s.workers == map[] && s.payments == [] && s.cancels == multiset{} && s.uncancelled == {} && s.unrecorded == {}
  {
    IdleInv(env);
    var s1 := Exec(env, IDLE, Quote(h, invoice));
    StepKeeps(env, IDLE, Quote(h, invoice));
    HeldAfterQuote(env, s1, h, deadline);
    es := [Quote(h, invoice)] + [HtlcHeld(h, deadline)];
    RunFirst(env, IDLE, Quote(h, invoice), [HtlcHeld(h, deadline)]);
    RunOne(env, s1, HtlcHeld(h, deadline));
  }

  // ---------------------------------------------------------------- a started payment

  /** Quoted, held, taken; the send's answer is lost, the job reports a retry, is picked up
      again, finds its gate closed, and cancels the HODL. */
  lemma StartedHodlIsCancelled(env: Env, h: string, invoice: string, deadline: Uint32, open: Answer)
    returns (es: seq<Event>, w: nat)
    requires deadline > 0 && open.send.TransportError? && open.store == STORED
    requires CheckGate(env, SendRow(invoice, Claimable, Some(deadline), None, None), open).Some?
    ensures var s := Run(env, IDLE, es);
            && SystemInv(env, s) && Paid(s, h) && h in s.cancels && StatusIn(s.db, h, {OutboundPending})
            && w in s.workers && s.workers[w].UndoRecord? && s.workers[w].hash == h && s.workers[w].to == Failed
  {
    IdleInv(env);
    var s0 := Exec(env, IDLE, Quote(h, invoice));
    StepKeeps(env, IDLE, Quote(h, invoice));
    var take := TakeIsReachable(env, s0, h, 1, deadline, open);
    var s1 := Run(env, s0, take);
    RunKeeps(env, s0, take);
    assert WorkerInv(env, s1.db, s1.claims, s1.workers[1]);
    var send := TakenIsSent(env, s1, 1, h, s1.workers[1].gate, open);
    var s2 := Run(env, s1, send);
    RetryReopensJob(env, s2, 1, open, h);
    var s3 := Exec(env, s2, Go(1, open));
    var undo: seq<Event>;
    undo, w := JobIsRefused(env, s3, h, true);
    es := [Quote(h, invoice)] + (take + (send + ([Go(1, open)] + undo)));
    RunFirst(env, IDLE, Quote(h, invoice), take + (send + ([Go(1, open)] + undo)));
    RunConcat(env, s0, take, send + ([Go(1, open)] + undo));
    RunConcat(env, s1, send, [Go(1, open)] + undo);
    RunFirst(env, s2, Go(1, open), undo);
    RunKeeps(env, IDLE, es);
  }

  /** Recorded, the relay is failed with its payment started. */
  lemma StartedRelayIsFailed(env: Env, h: string, invoice: string, deadline: Uint32, open: Answer) returns (es: seq<Event>)
    requires deadline > 0 && open.send.TransportError? && open.store == STORED
    requires CheckGate(env, SendRow(invoice, Claimable, Some(deadline), None, None), open).Some?
    ensures var s := Run(env, IDLE, es); Paid(s, h) && h in s.cancels && StatusIn(s.db, h, {Failed})
  {
    var w: nat;
    es, w := StartedHodlIsCancelled(env, h, invoice, deadline, open);
    var s := Run(env, IDLE, es);
    UndoIsRecorded(env, s, w, h);
    StatusOnlyRises(env, s, [Go(w, Refusal(true))]);
    StaysPaid(s, Run(env, s, [Go(w, Refusal(true))]), h);
    RunConcat(env, IDLE, es, [Go(w, Refusal(true))]);
    es := es + [Go(w, Refusal(true))];
  }

  lemma StaysPaid(s: System, s': System, h: string)
    requires Paid(s, h) && Forward(s, s')
    ensures Paid(s', h)
  {
    var i :| 0 <= i < |s.payments| && s.payments[i].hash == h;
    assert s'.payments[i] == s.payments[i];
  }

  /** But when the preimage arrives between the cancel and its record, the relay goes on to
      collecting a HODL that is gone. */
  lemma CancelledRelayIsCollecting(env: Env, h: string, invoice: string, deadline: Uint32, open: Answer, p: string)
    returns (es: seq<Event>)
    requires deadline > 0 && open.send.TransportError? && open.store == STORED && env.sha(p) == h
    requires CheckGate(env, SendRow(invoice, Claimable, Some(deadline), None, None), open).Some?
    ensures var s := Run(env, IDLE, es); Paid(s, h) && h in s.cancels && StatusIn(s.db, h, {OutboundClaimed})
  {
    var w: nat;
    es, w := StartedHodlIsCancelled(env, h, invoice, deadline, open);
    var s := Run(env, IDLE, es);
    var s1 := Exec(env, s, PaymentSent(h, p));
    assert StatusIn(s1.db, h, {OutboundClaimed}) && s1.workers == s.workers && s1.payments == s.payments && s1.cancels == s.cancels;
    UndoRecordsIff(env, s1, w, open, h, s.workers[w].to, s.workers[w].reason);
    RunFirst(env, s, PaymentSent(h, p), [Go(w, open)]);
    RunOne(env, s1, Go(w, open));
    RunConcat(env, IDLE, es, [PaymentSent(h, p)] + [Go(w, open)]);
    es := es + ([PaymentSent(h, p)] + [Go(w, open)]);
  }

  /** The gate is closed at first, the HODL is cancelled, and the worker dies before it
      records that. The job is picked up again, finds the gate open, and starts the payment
      that nothing can be collected for any more. */
  lemma PaymentStartsAfterCancel(env: Env, h: string, invoice: string, deadline: Uint32)
    returns (before: seq<Event>, after: seq<Event>)
    requires deadline > Required(env, invoice)
    ensures var s := Run(env, IDLE, before); s.payments == [] && h in s.cancels && StatusIn(s.db, h, {Claimable})
    ensures Paid(Run(env, IDLE, before + after), h)
  {
    var held := StartsHeld(env, h, invoice, deadline);
    var s1 := Run(env, IDLE, held);
    var refuse, w := JobIsRefused(env, s1, h, true);
    var s2 := Run(env, s1, refuse);
    before := held + (refuse + [Crash(w)]);
    RunConcat(env, IDLE, held, refuse + [Crash(w)]);
    RunConcat(env, s1, refuse, [Crash(w)]);
    RunOne(env, s2, Crash(w));
    var s3 := Exec(env, s2, Crash(w));
    RunKeeps(env, s1, refuse);
    StepKeeps(env, s2, Crash(w));
    assert HeldInv(s3, h);
    after := MayPayPays(env, s3, h);
    RunConcat(env, IDLE, before, after);
  }

  // ---------------------------------------------------------------- calls that fail

  /** Quoted, held, refused by a closed gate; the cancel comes to nothing and the job reports
      done, its undo recorded or not. Nobody is left to work at the relay. */
  lemma RefusalIsReportedDone(env: Env, h: string, invoice: string, deadline: Uint32, record: bool) returns (es: seq<Event>)
    requires deadline > 0
    ensures var s := Run(env, IDLE, es);
            && SystemInv(env, s) && s.workers == map[] && !Undone(s.db, PayKey(h))
            && s.payments == [] && s.cancels == multiset{}
            && (if record then StatusIn(s.db, h, {Failed})
                else StatusIn(s.db, h, {Claimable}) && s.db.sends[h].deadline == Some(deadline))
  {
    var held := StartsHeld(env, h, invoice, deadline);
    var s1 := Run(env, IDLE, held);
    var refuse, w := JobIsRefused(env, s1, h, false);
    var s2 := Run(env, s1, refuse);
    var a := if record then Refusal(false) else OUTAGE;
    var s3 := Exec(env, s2, Go(w, a));
    RecordStep(env, s2, w, a, h, s2.workers[w].to, s2.workers[w].reason);
    DoneClosesJob(env, s3, w, a, h);
    es := held + (refuse + ([Go(w, a)] + [Go(w, a)]));
    RunConcat(env, IDLE, held, refuse + ([Go(w, a)] + [Go(w, a)]));
    RunConcat(env, s1, refuse, [Go(w, a)] + [Go(w, a)]);
    RunFirst(env, s2, Go(w, a), [Go(w, a)]);
    RunOne(env, s3, Go(w, a));
    IdleInv(env);
    RunKeeps(env, IDLE, es);
  }

  /** A relay that ends failed while its HODL is never cancelled, not then and not later. */
  lemma FailedHodlStaysHeld(env: Env, h: string, invoice: string, deadline: Uint32) returns (es: seq<Event>)
    requires deadline > 0
    ensures StatusIn(Run(env, IDLE, es).db, h, {Failed})
    ensures forall later: seq<Event> :: h !in Run(env, Run(env, IDLE, es), later).cancels
  {
    es := RefusalIsReportedDone(env, h, invoice, deadline, true);
    var s := Run(env, IDLE, es);
    forall later: seq<Event> ensures h !in Run(env, s, later).cancels {
      NeverCancels(env, s, later, h);
    }
  }

  /** A held relay whose job is done: no later run pays it, refunds it or cancels its HODL. */
  lemma HeldRelayIsForgotten(env: Env, h: string, invoice: string, deadline: Uint32) returns (es: seq<Event>)
    requires deadline > 0
    ensures StatusIn(Run(env, IDLE, es).db, h, {Claimable})
    ensures forall later: seq<Event> ::
              var s := Run(env, Run(env, IDLE, es), later);
              StatusIn(s.db, h, {Claimable}) && !Paid(s, h) && h !in s.cancels
  {
    es := RefusalIsReportedDone(env, h, invoice, deadline, false);
    var s := Run(env, IDLE, es);
    forall later: seq<Event>
      ensures var s' := Run(env, s, later); StatusIn(s'.db, h, {Claimable}) && !Paid(s', h) && h !in s'.cancels
    {
      NeverFails(env, s, later, h);
      NeverCancels(env, s, later, h);
      NeverPaid(env, s, later, h);
    }
  }
}
