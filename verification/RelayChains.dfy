/** Ways a run can go on from a given state: how a relay's pay job gets picked up again, and
    where an undisturbed worker takes it. */
module RelayChains {
  import opened Wrappers
  import opened DeadlinePolicy
  import opened RelayStore
  import opened Outbox
  import opened Relay
  import opened RelayRuns

  lemma {:induction false} RunConcat(env: Env, s: System, a: seq<Event>, b: seq<Event>)
    ensures Run(env, s, a + b) == Run(env, Run(env, s, a), b)
    decreases |a|
  {
    if a == [] {
      assert a + b == b;
    } else {
      assert (a + b)[0] == a[0] && (a + b)[1..] == a[1..] + b;
      RunConcat(env, Exec(env, s, a[0]), a[1..], b);
    }
  }

  lemma RunOne(env: Env, s: System, e: Event)
    ensures Run(env, s, [e]) == Exec(env, s, e)
  {
    assert [e][1..] == [];
    assert Run(env, Exec(env, s, e), []) == Exec(env, s, e);
  }

  lemma RunFirst(env: Env, s: System, e: Event, es: seq<Event>)
    ensures Run(env, s, [e] + es) == Run(env, Exec(env, s, e), es)
  {
    RunOne(env, s, e);
    RunConcat(env, s, [e], es);
  }

  lemma Unused(used: set<nat>) returns (n: nat)
    ensures n !in used
  {
    n := 0;
    var rest := used;
    while rest != {}
      invariant rest <= used && forall k :: k in used && k !in rest ==> k < n
      decreases rest
    {
      assert (forall k :: k !in rest) ==> rest == {};
      var k :| k in rest;
      n := if k < n then n else k + 1;
      rest := rest - {k};
    }
  }

  /** Nothing happened but to jobs, workers and the clock. */
  predicate OnlyWork(s: System, s': System) {
    && s'.db.sends == s.db.sends && s'.payments == s.payments && s'.claims == s.claims && s'.cancels == s.cancels
    && s'.uncancelled == s.uncancelled && s'.unrecorded == s.unrecorded
  }

  predicate At(s: System, w: nat, pc: Pc) {
    w in s.workers && s.workers[w] == pc
  }

  /** An unfinished pay job is picked up again once its delay or lease has passed. */
  lemma JobIsPickedUp(env: Env, s: System, h: string) returns (es: seq<Event>, w: nat)
    requires Undone(s.db, PayKey(h)) && LeaseEnds(s.db, PayKey(h))
    ensures w !in s.workers && OnlyWork(s, Run(env, s, es)) && At(Run(env, s, es), w, PayLoad(h))
    ensures Run(env, s, es).workers.Keys == s.workers.Keys + {w} && PayKey(h) in Run(env, s, es).db.jobs
  {
    w := Unused(s.workers.Keys);
    var j := s.db.jobs[PayKey(h)];
    var ready := if j.status == JobStatus.Pending then j.availableAt else j.lockedUntil.value;
    var wait := Tick(if ready > s.now then ready - s.now else 0);
    var s1 := Exec(env, s, wait);
    assert Eligible(s1.db.jobs[PayKey(h)], s1.now) && w !in s1.workers;
    es := [wait] + [TakeJob(w, PayKey(h))];
    RunFirst(env, s, wait, [TakeJob(w, PayKey(h))]);
    RunOne(env, s1, TakeJob(w, PayKey(h)));
  }

  /** A retry report makes the job unfinished. */
  lemma RetryReopensJob(env: Env, s: System, w: nat, a: Answer, h: string)
    requires At(s, w, PayDone(h, false)) && PayKey(h) in s.db.jobs
    ensures var s' := Exec(env, s, Go(w, a));
            OnlyWork(s, s') && Undone(s'.db, PayKey(h)) && LeaseEnds(s'.db, PayKey(h))
  {}

  lemma DoneClosesJob(env: Env, s: System, w: nat, a: Answer, h: string)
    requires At(s, w, PayDone(h, true)) && PayKey(h) in s.db.jobs
    ensures var s' := Exec(env, s, Go(w, a));
            OnlyWork(s, s') && !Undone(s'.db, PayKey(h)) && s'.workers == s.workers - {w}
  {}

  // ---------------------------------------------------------------- an undisturbed worker

  lemma LoadStep(env: Env, s: System, w: nat, a: Answer, h: string)
    requires At(s, w, PayLoad(h)) && StatusIn(s.db, h, {Claimable, OutboundPending}) && a.store.load
    ensures var s' := Exec(env, s, Go(w, a));
            && s'.db == s.db && OnlyWork(s, s') && s'.workers == s.workers[w := PayGate(h, s.db.sends[h])]
  {}

  lemma GateStep(env: Env, s: System, w: nat, a: Answer, h: string, row: SendRow)
    requires At(s, w, PayGate(h, row))
    ensures var s' := Exec(env, s, Go(w, a));
            && s'.db == s.db && OnlyWork(s, s')
            && s'.workers == s.workers[w := match CheckGate(env, row, a)
                                            case Some(gate) => PayTake(h, gate)
                                            case None => UndoCancel(h, Failed, "refused")]
  {}

  /** The cancel is called, and whether or not it takes effect the undo goes on. */
  lemma CancelStep(env: Env, s: System, w: nat, a: Answer, h: string, to: SendState, reason: string)
    requires At(s, w, UndoCancel(h, to, reason))
    ensures var s' := Exec(env, s, Go(w, a));
            && s'.db == s.db && s'.payments == s.payments && s'.claims == s.claims && s'.unrecorded == s.unrecorded
            && s'.cancels == (if a.cancelled then s.cancels + multiset{h} else s.cancels)
            && s'.uncancelled == (if a.cancelled then s.uncancelled else s.uncancelled + {h})
            && s'.workers == s.workers[w := UndoRecord(h, to, reason)]
  {
    var m := WorkerStep(env, s.db, s.now, UndoCancel(h, to, reason), a);
    assert s.payments + m.payments == s.payments && s.claims + m.claims == s.claims && s.unrecorded + m.unrecorded == s.unrecorded;
    assert a.cancelled ==> s.uncancelled + m.uncancelled == s.uncancelled;
    assert !a.cancelled ==> s.cancels + m.cancels == s.cancels;
  }

  /** The undo is recorded, or the store does not take it; the job is reported done. */
  lemma RecordStep(env: Env, s: System, w: nat, a: Answer, h: string, to: SendState, reason: string)
    requires At(s, w, UndoRecord(h, to, reason)) && StatusIn(s.db, h, UNDOABLE)
    ensures var s' := Exec(env, s, Go(w, a));
            && s'.payments == s.payments && s'.cancels == s.cancels && s'.uncancelled == s.uncancelled
            && s'.db.jobs == s.db.jobs && s'.workers == s.workers[w := PayDone(h, true)]
            && (if a.store.record then StatusIn(s'.db, h, {to}) else s'.db == s.db && h in s'.unrecorded)
  {}

  lemma TakeStep(env: Env, s: System, w: nat, a: Answer, h: string, gate: Gate)
    requires At(s, w, PayTake(h, gate)) && StatusIn(s.db, h, {Claimable}) && a.store.take
    ensures var s' := Exec(env, s, Go(w, a));
            && s'.payments == s.payments && s'.cancels == s.cancels && s'.db.jobs == s.db.jobs
            && StatusIn(s'.db, h, {OutboundPending}) && At(s', w, PaySend(h, gate))
  {}

  lemma SendStep(env: Env, s: System, w: nat, a: Answer, h: string, gate: Gate)
    requires At(s, w, PaySend(h, gate))
    ensures var s' := Exec(env, s, Go(w, a));
            && s'.db == s.db && s'.cancels == s.cancels && Paid(s', h) && w in s'.workers
            && (a.send.TransportError? ==> At(s', w, PayDone(h, false)))
  {
    assert Exec(env, s, Go(w, a)).payments[|s.payments|] == Payment(h, gate);
  }

  // ---------------------------------------------------------------- refused

  /** Nobody tells the height, a payment fails, a cancel takes effect or not, the store works. */
  function Refusal(cancelled: bool): Answer {
    Answer(false, None, ReportedFailed, false, cancelled, STORED)
  }

  /** After its load the store fails, and so does the node. */
  const OUTAGE := Answer(false, None, TransportError, false, false, StoreAnswer(true, false, false, false))

  /** A worker has just called the cancel and is about to record it. */
  predicate JustCancelled(s: System, s': System, h: string, cancelled: bool, w: nat) {
    && s'.db.sends == s.db.sends && s'.payments == s.payments && s'.unrecorded == s.unrecorded
    && s'.cancels == (if cancelled then s.cancels + multiset{h} else s.cancels)
    && s'.uncancelled == (if cancelled then s.uncancelled else s.uncancelled + {h})
    && w in s'.workers && s'.workers[w].UndoRecord? && s'.workers[w].hash == h && s'.workers[w].to == Failed
    && s'.workers.Keys <= s.workers.Keys + {w}
  }

  const REFUNDED := {Cancelled, Failed}

  lemma GateRefuses(env: Env, s: System, w: nat, h: string, row: SendRow, cancelled: bool) returns (es: seq<Event>)
    requires At(s, w, PayGate(h, row))
    ensures JustCancelled(s, Run(env, s, es), h, cancelled, w) && Run(env, s, es).db == s.db
  {
    var go := Go(w, Refusal(cancelled));
    var s1 := Exec(env, s, go);
    GateStep(env, s, w, Refusal(cancelled), h, row);
    CancelStep(env, s1, w, Refusal(cancelled), h, Failed, "refused");
    es := [go] + [go];
    RunFirst(env, s, go, [go]);
    RunOne(env, s1, go);
  }

  lemma LoadedIsRefused(env: Env, s: System, w: nat, h: string, cancelled: bool) returns (es: seq<Event>)
    requires At(s, w, PayLoad(h)) && StatusIn(s.db, h, {Claimable, OutboundPending})
    ensures JustCancelled(s, Run(env, s, es), h, cancelled, w) && Run(env, s, es).db == s.db
  {
    var go := Go(w, Refusal(cancelled));
    LoadStep(env, s, w, Refusal(cancelled), h);
    var rest := GateRefuses(env, Exec(env, s, go), w, h, s.db.sends[h], cancelled);
    es := [go] + rest;
    RunFirst(env, s, go, rest);
  }

  lemma JobIsRefused(env: Env, s: System, h: string, cancelled: bool) returns (es: seq<Event>, w: nat)
    requires Undone(s.db, PayKey(h)) && LeaseEnds(s.db, PayKey(h)) && StatusIn(s.db, h, {Claimable, OutboundPending})
    ensures JustCancelled(s, Run(env, s, es), h, cancelled, w) && PayKey(h) in Run(env, s, es).db.jobs
  {
    var pick: seq<Event>;
    pick, w := JobIsPickedUp(env, s, h);
    var rest := LoadedIsRefused(env, Run(env, s, pick), w, h, cancelled);
    es := pick + rest;
    RunConcat(env, s, pick, rest);
  }

  // ---------------------------------------------------------------- back to the job

  predicate Outside(pc: Pc) {
    pc.PayTake? || pc.PayRecheck? || pc.PaySend? || pc.PayRecord?
  }

  /** A worker at a store or node call of the payment gets an error and reports a retry. */
  lemma OutageStep(env: Env, s: System, w: nat, h: string)
    requires w in s.workers && s.workers[w].hash == h && Outside(s.workers[w])
    ensures var s' := Exec(env, s, Go(w, OUTAGE));
            && s'.db == s.db && At(s', w, PayDone(h, false)) && s'.cancels == s.cancels
            && (s.workers[w].PayTake? || s.workers[w].PayRecheck? ==> OnlyWork(s, s'))
  {}

  /** From such a call, or from the retry report itself, the pay job becomes unfinished. */
  lemma WorkerReopensJob(env: Env, s: System, w: nat, h: string) returns (es: seq<Event>)
    requires w in s.workers && s.workers[w].hash == h && PayKey(h) in s.db.jobs
    requires Outside(s.workers[w]) || s.workers[w] == PayDone(h, false)
    ensures var s' := Run(env, s, es);
            && s'.db.sends == s.db.sends && s'.cancels == s.cancels
            && Undone(s'.db, PayKey(h)) && LeaseEnds(s'.db, PayKey(h))
            && (!s.workers[w].PaySend? && !s.workers[w].PayRecord? ==> OnlyWork(s, s'))
  {
    if s.workers[w] == PayDone(h, false) {
      RetryReopensJob(env, s, w, OUTAGE, h);
      es := [Go(w, OUTAGE)];
      RunOne(env, s, Go(w, OUTAGE));
    } else {
      OutageStep(env, s, w, h);
      RetryReopensJob(env, Exec(env, s, Go(w, OUTAGE)), w, OUTAGE, h);
      es := [Go(w, OUTAGE)] + [Go(w, OUTAGE)];
      RunFirst(env, s, Go(w, OUTAGE), [Go(w, OUTAGE)]);
      RunOne(env, Exec(env, s, Go(w, OUTAGE)), Go(w, OUTAGE));
    }
  }

  // ---------------------------------------------------------------- paid

  /** The earliest height, at which the gate opens if it ever does. */
  const EARLIEST := Answer(true, Some(0), Initiated, false, false, STORED)

  /** The gate opens at some height exactly when the recorded deadline exceeds the blocks
      demanded for the invoice. */
  lemma GateCanOpenIff(env: Env, row: SendRow)
    requires row.deadline.Some? && row.deadline.value > 0
    ensures CheckGate(env, row, EARLIEST).Some? <==> row.deadline.value > Required(env, row.outboundInvoice)
    ensures (exists a :: CheckGate(env, row, a).Some?) <==> row.deadline.value > Required(env, row.outboundInvoice)
  {
    var required := Required(env, row.outboundInvoice);
    GateMeans(row.deadline.value, 0, required);
    forall a | CheckGate(env, row, a).Some? ensures row.deadline.value > required {
      GateMeans(row.deadline.value, a.height.value, required);
    }
  }

  /** A worker that has read a held relay gets to taking its payment under an open gate. */
  lemma GateIsTaken(env: Env, s: System, w: nat, h: string, row: SendRow, a: Answer) returns (es: seq<Event>, gate: Gate)
    requires At(s, w, PayGate(h, row)) && CheckGate(env, row, a).Some?
    ensures var s' := Run(env, s, es); s'.db == s.db && OnlyWork(s, s') && At(s', w, PayTake(h, gate))
  {
    GateStep(env, s, w, a, h, row);
    gate := CheckGate(env, row, a).value;
    es := [Go(w, a)];
    RunOne(env, s, Go(w, a));
  }

  lemma LoadedIsTaken(env: Env, s: System, w: nat, h: string, a: Answer) returns (es: seq<Event>, gate: Gate)
    requires At(s, w, PayLoad(h)) && StatusIn(s.db, h, {Claimable}) && CheckGate(env, s.db.sends[h], a).Some? && a.store.load
    ensures var s' := Run(env, s, es); s'.db == s.db && OnlyWork(s, s') && At(s', w, PayTake(h, gate))
  {
    LoadStep(env, s, w, a, h);
    var rest;
    rest, gate := GateIsTaken(env, Exec(env, s, Go(w, a)), w, h, s.db.sends[h], a);
    es := [Go(w, a)] + rest;
    RunFirst(env, s, Go(w, a), rest);
  }

  lemma TakenIsSent(env: Env, s: System, w: nat, h: string, gate: Gate, a: Answer) returns (es: seq<Event>)
    requires At(s, w, PayTake(h, gate)) && StatusIn(s.db, h, {Claimable}) && a.store.take
    ensures var s' := Run(env, s, es);
            && Paid(s', h) && s'.cancels == s.cancels && StatusIn(s'.db, h, {OutboundPending}) && s'.db.jobs == s.db.jobs
            && (a.send.TransportError? ==> At(s', w, PayDone(h, false)))
  {
    var s1 := Exec(env, s, Go(w, a));
    TakeStep(env, s, w, a, h, gate);
    SendStep(env, s1, w, a, h, gate);
    es := [Go(w, a)] + [Go(w, a)];
    RunFirst(env, s, Go(w, a), [Go(w, a)]);
    RunOne(env, s1, Go(w, a));
  }

  lemma LoadedIsPaid(env: Env, s: System, w: nat, h: string) returns (es: seq<Event>)
    requires At(s, w, PayLoad(h)) && StatusIn(s.db, h, {Claimable}) && CheckGate(env, s.db.sends[h], EARLIEST).Some?
    ensures Paid(Run(env, s, es), h)
  {
    var load, gate := LoadedIsTaken(env, s, w, h, EARLIEST);
    var send := TakenIsSent(env, Run(env, s, load), w, h, gate, EARLIEST);
    es := load + send;
    RunConcat(env, s, load, send);
  }

  /** A held relay's unfinished pay job can be picked up and paid, if its gate can open. */
  lemma HeldIsPaid(env: Env, s: System, h: string) returns (es: seq<Event>)
    requires StatusIn(s.db, h, {Claimable}) && Undone(s.db, PayKey(h)) && LeaseEnds(s.db, PayKey(h))
    requires CheckGate(env, s.db.sends[h], EARLIEST).Some?
    ensures Paid(Run(env, s, es), h)
  {
    var pick, w := JobIsPickedUp(env, s, h);
    var rest := LoadedIsPaid(env, Run(env, s, pick), w, h);
    es := pick + rest;
    RunConcat(env, s, pick, rest);
  }
}
