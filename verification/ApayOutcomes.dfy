/** What the hosted flow's callbacks and webhooks and its undisturbed jobs come to, in the
    row's own terms. */
module ApayOutcomes {
  import opened Wrappers
  import opened DeadlinePolicy
  import opened Outbox
  import opened ApayJobs
  import opened ApayHeld
  import Bodies = ApayJobBodies
  import Inv = ApayInvoice

  // ---------------------------------------------------------------- callback and webhook

  /** The callback reserves a hash once, and its row becomes active with the invoice or fails
      without one exactly while it is reserved. */
  lemma CallbackDoes(env: Env, s: System, h: string, index: int, amount: nat, invoice: string)
    ensures Exec(env, s, Reserve(h, index, amount))
            == if h in s.desk.rows then s
               else s.(desk := s.desk.(rows := s.desk.rows[h := Inv.Invoice(index, h, amount, Inv.Reserved, None, None, None, None)]))
    ensures var reserved := h in s.desk.rows && s.desk.rows[h].status == Inv.Reserved;
            && Exec(env, s, Finalize(h, invoice))
               == (if !reserved || invoice == "" then s
                   else s.(desk := s.desk.(rows := s.desk.rows[h := s.desk.rows[h].(status := Inv.Active, inboundInvoice := Some(invoice))])))
            && Exec(env, s, Release(h))
               == (if !reserved then s
                   else s.(desk := s.desk.(rows := s.desk.rows[h := s.desk.rows[h].(status := Inv.Failed, inboundInvoice := None)])))
  {}

  /** A released preimage takes effect exactly when it hashes to the hash of a paid row: it is
      recorded, unless there is one already, and the claim job queued. */
  lemma PaymentSentIff(env: Env, s: System, h: string, p: string)
    ensures var d' := Exec(env, s, PaymentSent(h, p)).desk;
            if h in s.desk.rows && s.desk.rows[h].status == Inv.OutboundPaid && env.sha(p) == s.desk.rows[h].paymentHash
            then var row := s.desk.rows[h];
                 && d'.rows == s.desk.rows[h := row.(status := Inv.OutboundClaimed,
                                                     preimage := if row.preimage.Some? then row.preimage else Some(p))]
                 && Queues(s.desk.jobs, d'.jobs, JobKey(h, ClaimInboundInvoice), s.now)
            else d' == s.desk
  {
    if h in s.desk.rows {
      Inv.MarkTransitionsIff(env.sha, s.desk.rows[h], Inv.MarkOutboundClaimed(p));
    }
  }

  // ---------------------------------------------------------------- the outbox

  /** A worker is handed a job of this flow exactly when the job is pending and due, or its
      five minutes are over; it then has it for five minutes and does what the job names. */
  lemma TakeJobIff(env: Env, s: System, w: nat, key: JobKey)
    ensures var s' := Exec(env, s, TakeJob(w, key));
            if && w !in s.workers && key in s.desk.jobs
               && (key.action == RequestOutboundInvoice || key.action == SendOutboundPayment || key.action == ClaimInboundInvoice)
               && var j := s.desk.jobs[key];
                  || (j.status == JobStatus.Pending && j.availableAt <= s.now)
                  || (j.status == Processing && j.lockedUntil.Some? && j.lockedUntil.value <= s.now)
            then && s'.workers == s.workers[w := if key.action == RequestOutboundInvoice then ReqLoad(key.paymentHash)
                                                 else if key.action == SendOutboundPayment then SendLoad(key.paymentHash)
                                                 else ClaimLoad(key.paymentHash)]
                 && key in s'.desk.jobs && s'.desk.jobs == s.desk.jobs[key := s'.desk.jobs[key]] && s'.desk.rows == s.desk.rows
                 && var (j, j') := (s.desk.jobs[key], s'.desk.jobs[key]);
                    j' == j.(status := Processing, attempts := j.attempts + 1, lockedUntil := Some(s.now + 300))
            else s' == s
  {}

  /** A worker's report finishes its job, or makes it due again in fifteen seconds. */
  lemma ReportLeaves(env: Env, s: System, w: nat, a: Answer)
    requires w in s.workers && s.workers[w].Report? && JobKey(s.workers[w].hash, s.workers[w].action) in s.desk.jobs
    ensures var key := JobKey(s.workers[w].hash, s.workers[w].action); var s' := Exec(env, s, Go(w, a));
            && s'.workers == s.workers - {w} && s'.desk.rows == s.desk.rows
            && key in s'.desk.jobs && s'.desk.jobs == s.desk.jobs[key := s'.desk.jobs[key]]
            && var (j, j') := (s.desk.jobs[key], s'.desk.jobs[key]);
               j' == if s.workers[w].ok then j.(status := Done, lockedUntil := None)
                     else j.(status := JobStatus.Pending, availableAt := s.now + 15, lockedUntil := None)
  {}

  /** Whoever holds a job may die: five minutes after it was handed out any other worker gets
      it. */
  lemma DeadHolderIsReplaced(env: Env, s: System, w: nat, v: nat, key: JobKey)
    requires key in s.desk.jobs && Exec(env, s, TakeJob(w, key)) != s && v !in s.workers
    ensures var taken := Exec(env, s, TakeJob(w, key));
            && Exec(env, taken, Crash(w)) == s.(desk := taken.desk)
            && forall wait: nat :: v in Exec(env, Exec(env, Exec(env, taken, Crash(w)), Tick(wait)), TakeJob(v, key)).workers
                                   <==> wait >= 300
  {
    assert s.workers[w := FirstStep(key)] - {w} == s.workers;
  }

  // ---------------------------------------------------------------- the request job

  /** The row's HTLC is held and its recipient has not answered yet. */
  predicate Waits(d: Desk, h: string) {
    h in d.rows && (d.rows[h].status == Inv.Claimable || d.rows[h].status == Inv.OutboundRequested) && d.rows[h].claimDeadline.Some?
  }

  predicate IsAt(d: Desk, h: string, statuses: set<Inv.Status>) {
    h in d.rows && d.rows[h].status in statuses
  }

  const ENDED := {Inv.InboundClaimed, Inv.InboundCancelled, Inv.OutboundCancelled, Inv.Failed}

  function Blocks(d: Desk, h: string, height: Int64): int
    requires Waits(d, h)
  {
    d.rows[h].claimDeadline.value - height
  }

  /** Nothing is sent or claimed, and of the desk at most row `h` moves to `status`. */
  predicate Only(d: Desk, o: Bodies.Outcome, h: string, status: Inv.Status, ok: bool)
    requires h in d.rows
  {
    o.sends == [] && o.claims == {} && o.ok == ok && o.desk == d.(rows := d.rows[h := d.rows[h].(status := status)])
  }

  predicate Idle(d: Desk, o: Bodies.Outcome, ok: bool) {
    o.sends == [] && o.claims == {} && o.ok == ok && o.desk == d
  }

  /** A request job whose row does not wait does nothing; it is done once the row is past it. */
  lemma RequestHasNothingToDo(env: Env, d: Desk, now: int, h: string, a: Bodies.Answers)
    requires !Waits(d, h)
    ensures Idle(d, Bodies.Finish(env, d, now, ReqLoad(h), a),
                 IsAt(d, h, {Inv.OutboundPending, Inv.OutboundPaid, Inv.OutboundClaimed} + ENDED))
  {
    Bodies.LoadingOutcome(env, d, now, h, a);
  }

  /** Without the height, or in time but without the account, it does nothing and is retried;
      too late, the row fails and the job is done. */
  lemma RequestIsTurnedBack(env: Env, d: Desk, now: int, h: string, a: Bodies.Answers)
    requires Waits(d, h)
    ensures var o := Bodies.Finish(env, d, now, ReqLoad(h), a);
            && (a.gate.height == None ==> Idle(d, o, false))
            && (a.gate.height.Some? && Blocks(d, h, a.gate.height.value) <= env.cfg.outboundDelta + MarginBlocks(env.cfg) ==>
                  Only(d, o, h, Inv.Failed, true))
            && (a.gate.height.Some? && Blocks(d, h, a.gate.height.value) > env.cfg.outboundDelta + MarginBlocks(env.cfg) ==>
                  a.gate.accountKnown || Idle(d, o, false))
  {
    Bodies.LoadingOutcome(env, d, now, h, a);
    Bodies.GateOutcome(env, d, now, h, d.rows[h], a);
    if a.gate.height.Some? {
      GatesMean(env.cfg, d.rows[h].claimDeadline.value, a.gate.height.value);
    }
    Inv.MarkTransitionsIff(env.sha, d.rows[h], Inv.MarkFailed);
  }

  /** In time, and with the recipient's account known. */
  predicate Asks(env: Env, d: Desk, h: string, a: Bodies.Answers) {
    && Waits(d, h) && a.gate.height.Some? && a.gate.accountKnown
    && Blocks(d, h, a.gate.height.value) > env.cfg.outboundDelta + MarginBlocks(env.cfg)
  }

  /** Past the gate, a row already asked for is asked for again. */
  lemma AskedAgain(env: Env, d: Desk, now: int, h: string, row: Inv.Invoice, a: Bodies.Answers)
    requires IsAt(d, h, {Inv.OutboundRequested})
    ensures Bodies.Finish(env, d, now, ReqReload(h, row), a) == Bodies.Finish(env, d, now, ReqCall(h, row), a)
  {
    Bodies.ReloadOutcome(env, d, now, h, row, a);
  }

  lemma AskedFirst(env: Env, d: Desk, now: int, h: string, a: Bodies.Answers)
    requires IsAt(d, h, {Inv.Claimable})
    ensures var row := d.rows[h]; var asked := d.(rows := d.rows[h := row.(status := Inv.OutboundRequested)]);
            Bodies.Finish(env, d, now, ReqMark(h, row), a) == Bodies.Finish(env, asked, now, ReqReload(h, row), a)
  {
    Bodies.MarkingOutcome(env, d, now, h, d.rows[h], a);
  }

  lemma GateIsPassed(env: Env, d: Desk, now: int, h: string, a: Bodies.Answers)
    requires Asks(env, d, h, a)
    ensures var row := d.rows[h];
            Bodies.Finish(env, d, now, ReqLoad(h), a)
            == Bodies.Finish(env, d, now, if row.status == Inv.Claimable then ReqMark(h, row) else ReqReload(h, row), a)
  {
    var row := d.rows[h];
    GatesMean(env.cfg, row.claimDeadline.value, a.gate.height.value);
    Bodies.LoadingOutcome(env, d, now, h, a);
    Bodies.GateOutcome(env, d, now, h, row, a);
  }

  /** It then asks the recipient, and the row says so. */
  lemma RequestAsks(env: Env, d: Desk, now: int, h: string, a: Bodies.Answers)
    requires Asks(env, d, h, a)
    ensures var row := d.rows[h]; var asked := d.(rows := d.rows[h := row.(status := Inv.OutboundRequested)]);
            Bodies.Finish(env, d, now, ReqLoad(h), a) == Bodies.Finish(env, asked, now, ReqCall(h, row), a)
  {
    var row := d.rows[h];
    var asked := d.(rows := d.rows[h := row.(status := Inv.OutboundRequested)]);
    GateIsPassed(env, d, now, h, a);
    AskedAgain(env, asked, now, h, row, a);
    if row.status == Inv.Claimable {
      AskedFirst(env, d, now, h, a);
    } else {
      assert row.(status := Inv.OutboundRequested) == row && asked.rows == d.rows;
    }
  }

  /** Enough blocks are left for the invoice that came. */
  predicate Accepts(env: Env, d: Desk, h: string, a: Answer)
    requires Waits(d, h)
  {
    && a.outbound.Some? && a.outbound != Some("") && a.height.Some?
    && Blocks(d, h, a.height.value) > env.cfg.outboundDelta + 3 + MarginBlocks(env.cfg)
  }

  lemma AnswerOutcome(env: Env, d: Desk, now: int, h: string, row: Inv.Invoice, a: Bodies.Answers)
    requires Waits(d, h) && d.rows[h].status == Inv.OutboundRequested && row.claimDeadline == d.rows[h].claimDeadline
    ensures var o := Bodies.Finish(env, d, now, ReqCall(h, row), a); var invoice := d.rows[h].outboundInvoice;
            && o.sends == [] && o.claims == {} && (o.ok <==> Accepts(env, d, h, a.later))
            && (if o.ok
                then && o.desk.rows == d.rows[h := d.rows[h].(status := Inv.OutboundPending,
                                                              outboundInvoice := if invoice.Some? then invoice else a.later.outbound)]
                     && Queues(d.jobs, o.desk.jobs, JobKey(h, SendOutboundPayment), now)
                else o.desk == d)
  {
    Bodies.CallingOutcome(env, d, now, h, row, a);
    if a.later.height.Some? {
      GatesMean(env.cfg, row.claimDeadline.value, a.later.height.value);
    }
    if a.later.outbound.Some? {
      Inv.MarkTransitionsIff(env.sha, d.rows[h], Inv.MarkOutboundPending(a.later.outbound.value));
    }
  }

  /** The job is done exactly when it can accept the recipient's invoice: the row is pending
      with it and the send job queued. Otherwise the row stays asked for and it is retried. */
  lemma RequestIsAnsweredIff(env: Env, d: Desk, now: int, h: string, a: Bodies.Answers)
    requires Asks(env, d, h, a)
    ensures var o := Bodies.Finish(env, d, now, ReqLoad(h), a); var row := d.rows[h];
            && o.sends == [] && o.claims == {} && (o.ok <==> Accepts(env, d, h, a.later))
            && (if o.ok
                then && o.desk.rows == d.rows[h := row.(status := Inv.OutboundPending,
                                                        outboundInvoice := if row.outboundInvoice.Some? then row.outboundInvoice else a.later.outbound)]
                     && Queues(d.jobs, o.desk.jobs, JobKey(h, SendOutboundPayment), now)
                else o.desk == d.(rows := d.rows[h := row.(status := Inv.OutboundRequested)]))
  {
    RequestAsks(env, d, now, h, a);
    AnswerOutcome(env, d.(rows := d.rows[h := d.rows[h].(status := Inv.OutboundRequested)]), now, h, d.rows[h], a);
  }

  // ---------------------------------------------------------------- the send and claim jobs

  /** A send job sends exactly for a pending row, once and with the invoice on record; the row
      is paid unless no answer came. */
  lemma SendJobOutcome(env: Env, d: Desk, now: int, h: string, a: Bodies.Answers)
    ensures var o := Bodies.Finish(env, d, now, SendLoad(h), a);
            if IsAt(d, h, {Inv.OutboundPending}) && d.rows[h].outboundInvoice.Some? && d.rows[h].outboundInvoice != Some("")
            then && o.sends == [Sent(h, d.rows[h].outboundInvoice.value)]
                 && Only(d, o.(sends := []), h, if a.later.send == TransportError then Inv.OutboundPending else Inv.OutboundPaid,
                         a.later.send != TransportError)
            else Idle(d, o, IsAt(d, h, {Inv.OutboundPaid, Inv.OutboundClaimed} + ENDED))
  {
    Bodies.SendingOutcome(env, d, now, h, a);
    if IsAt(d, h, {Inv.OutboundPending}) {
      Inv.MarkTransitionsIff(env.sha, d.rows[h], Inv.MarkOutboundPaid);
      assert d.rows[h := d.rows[h].(status := Inv.OutboundPending)] == d.rows;
    }
  }

  /** A claim job claims exactly for a row whose preimage arrived, with that preimage; the row
      is claimed exactly when the node confirms. */
  lemma ClaimJobOutcome(env: Env, d: Desk, now: int, h: string, a: Bodies.Answers)
    ensures var o := Bodies.Finish(env, d, now, ClaimLoad(h), a);
            if IsAt(d, h, {Inv.OutboundClaimed}) && d.rows[h].preimage.Some? && a.later.claimed
            then o.claims == {Claim(h, d.rows[h].preimage.value)} && Only(d, o.(claims := {}), h, Inv.InboundClaimed, true)
            else Idle(d, o, IsAt(d, h, ENDED))
  {
    Bodies.ClaimingOutcome(env, d, now, h, a);
    if IsAt(d, h, {Inv.OutboundClaimed}) {
      Inv.MarkTransitionsIff(env.sha, d.rows[h], Inv.MarkInboundClaimed);
    }
  }
}
