/** What outbound_paid means in the hosted-address flow, and exactly when a send job sends and
    records it. */
module ApayJobPaid {
  import opened Wrappers
  import opened DeadlinePolicy
  import opened Outbox
  import opened ApayJobs
  import opened ApayJobRuns
  import opened ApayJobTheorems
  import Bodies = ApayJobBodies
  import Inv = ApayInvoice

  ghost predicate SentFor(sends: seq<Sent>, h: string) {
    exists i :: 0 <= i < |sends| && sends[i].hash == h
  }

  predicate PaidOrLater(d: Desk, h: string) {
    h in d.rows && d.rows[h].status in {Inv.OutboundPaid, Inv.OutboundClaimed, Inv.InboundClaimed}
  }

  /** Every paid row was sent, and so was what a worker is about to record as paid. */
  ghost predicate PaidInv(s: System) {
    && (forall h :: PaidOrLater(s.desk, h) ==> SentFor(s.sends, h))
    && (forall w :: w in s.workers && s.workers[w].SendMark? ==> SentFor(s.sends, s.workers[w].hash))
  }

  lemma MarkPaid(env: Env, d: Desk, h: string, m: Inv.Mark, job: Option<Action>, now: int, g: string)
    requires !m.MarkOutboundPaid?
    ensures PaidOrLater(MarkTx(env, d, h, m, job, now), g) ==> PaidOrLater(d, g)
  {}

  lemma WorkerPaid(env: Env, s: System, pc: Pc, a: Answer, g: string)
    requires !pc.Report?
    ensures var m := WorkerStep(env, s.desk, s.now, pc, a);
            && (PaidOrLater(m.desk, g) && !PaidOrLater(s.desk, g) ==> pc.SendMark? && pc.hash == g)
            && (m.next.SendMark? ==> pc.SendCall? && m.next.hash == pc.hash)
            && m.sends == (if pc.SendCall? then [Sent(pc.hash, pc.invoice)] else [])
  {
    match pc
    case ReqFail(h) => MarkPaid(env, s.desk, h, Inv.MarkFailed, None, s.now, g);
    case ReqMark(h, _) => MarkPaid(env, s.desk, h, Inv.MarkOutboundRequested, None, s.now, g);
    case ReqPend(h, invoice) => MarkPaid(env, s.desk, h, Inv.MarkOutboundPending(invoice), Some(SendOutboundPayment), s.now, g);
    case ClaimMark(h) => MarkPaid(env, s.desk, h, Inv.MarkInboundClaimed, None, s.now, g);
    case _ =>
  }

  lemma StaysSent(sends: seq<Sent>, more: seq<Sent>, h: string)
    requires SentFor(sends, h)
    ensures SentFor(sends + more, h)
  {
    var i :| 0 <= i < |sends| && sends[i].hash == h;
    assert (sends + more)[i] == sends[i];
  }

  lemma MovedPaid(s: System, w: nat, m: Moved)
    requires PaidInv(s) && w in s.workers
    requires forall h :: PaidOrLater(m.desk, h) && !PaidOrLater(s.desk, h) ==> s.workers[w].SendMark? && s.workers[w].hash == h
    requires m.next.SendMark? ==> s.workers[w].SendCall? && m.next.hash == s.workers[w].hash
    requires m.sends == (if s.workers[w].SendCall? then [Sent(s.workers[w].hash, s.workers[w].invoice)] else [])
    ensures PaidInv(Moving(s, w, m))
  {
    forall h | PaidOrLater(m.desk, h) ensures SentFor(s.sends + m.sends, h) {
      StaysSent(s.sends, m.sends, h);
    }
    forall v | v in Moving(s, w, m).workers && Moving(s, w, m).workers[v].SendMark?
      ensures SentFor(s.sends + m.sends, Moving(s, w, m).workers[v].hash)
    {
      if v == w {
        assert (s.sends + m.sends)[|s.sends|].hash == m.next.hash;
      } else {
        StaysSent(s.sends, m.sends, s.workers[v].hash);
      }
    }
  }

  lemma MovingPaid(env: Env, s: System, w: nat, m: Moved, a: Answer)
    requires PaidInv(s) && w in s.workers && !s.workers[w].Report? && m == WorkerStep(env, s.desk, s.now, s.workers[w], a)
    ensures PaidInv(Moving(s, w, m))
  {
    WorkerPaid(env, s, s.workers[w], a, "");
    forall h ensures PaidOrLater(m.desk, h) && !PaidOrLater(s.desk, h) ==> s.workers[w].SendMark? && s.workers[w].hash == h {
      WorkerPaid(env, s, s.workers[w], a, h);
    }
    MovedPaid(s, w, m);
  }

  lemma StepPaid(env: Env, s: System, e: Event)
    requires PaidInv(s)
    ensures PaidInv(Exec(env, s, e))
  {
    match e
    case Go(w, a) =>
      if w in s.workers && !s.workers[w].Report? {
        MovingPaid(env, s, w, WorkerStep(env, s.desk, s.now, s.workers[w], a), a);
      }
    case HtlcHeld(h, amount, deadline, _) =>
      forall g ensures PaidOrLater(Exec(env, s, e).desk, g) ==> PaidOrLater(s.desk, g) {
        MarkPaid(env, s.desk, h, Inv.MarkClaimable(amount, Some(deadline)), Some(RequestOutboundInvoice), s.now, g);
      }
    case PaymentSent(h, p) =>
      forall g ensures PaidOrLater(Exec(env, s, e).desk, g) ==> PaidOrLater(s.desk, g) {
        MarkPaid(env, s.desk, h, Inv.MarkOutboundClaimed(p), Some(ClaimInboundInvoice), s.now, g);
      }
    case _ =>
  }

  lemma {:induction false} RunPaid(env: Env, s: System, es: seq<Event>)
    requires PaidInv(s)
    ensures PaidInv(Run(env, s, es))
    decreases |es|
  {
    if es != [] {
      StepPaid(env, s, es[0]);
      RunPaid(env, Exec(env, s, es[0]), es[1..]);
    }
  }

  /** In every run a row that is paid, or further, had its recorded invoice sent. */
  lemma PaidMeansSent(env: Env, es: seq<Event>, h: string)
    requires PaidOrLater(Run(env, IDLE, es).desk, h)
    ensures var s := Run(env, IDLE, es);
            s.desk.rows[h].outboundInvoice.Some? && Sent(h, s.desk.rows[h].outboundInvoice.value) in s.sends
  {
    IdleInv(env);
    RunKeeps(env, IDLE, es);
    RunPaid(env, IDLE, es);
    var s := Run(env, IDLE, es);
    var i :| 0 <= i < |s.sends| && s.sends[i].hash == h;
    assert s.desk.rows[h].outboundInvoice == Some(s.sends[i].invoice);
  }

  // ---------------------------------------------------------------- exactly when

  /** A send job that loads its row sends exactly when the row is outbound_pending, whatever
      was sent before and however little time is left, and then the invoice on record. */
  lemma SendJobSendsIff(env: Env, s: System, w: nat, a: Answer)
    requires SystemInv(env, s) && w in s.workers && s.workers[w].SendLoad?
    ensures var h := s.workers[w].hash; var s' := Exec(env, Exec(env, s, Go(w, a)), Go(w, a));
            && (|s'.sends| > |s.sends| <==> StatusIs(s.desk, h, Inv.OutboundPending))
            && (StatusIs(s.desk, h, Inv.OutboundPending) ==>
                  s.desk.rows[h].outboundInvoice.Some?
                  && s'.sends == s.sends + [Sent(h, s.desk.rows[h].outboundInvoice.value)])
  {
    var h := s.workers[w].hash;
    assert RowInv(env, s.desk, s.claims, h);
    var s1 := Exec(env, s, Go(w, a));
    if StatusIs(s.desk, h, Inv.OutboundPending) {
      assert s1.workers[w] == SendCall(h, s.desk.rows[h].outboundInvoice.value) && s1.sends == s.sends;
    } else {
      assert s1.workers[w].Report? && s1.sends == s.sends;
    }
  }

  /** An undisturbed worker that sends for a pending row records it paid exactly when it got
      an answer at all: a payment reported failed counts as paid. */
  lemma SendRecordsPaidIff(env: Env, s: System, w: nat, a: Answer)
    requires SystemInv(env, s) && w in s.workers && s.workers[w].SendCall?
    requires StatusIs(s.desk, s.workers[w].hash, Inv.OutboundPending)
    ensures var h := s.workers[w].hash; var s' := Exec(env, Exec(env, s, Go(w, a)), Go(w, a));
            && (StatusIs(s'.desk, h, Inv.OutboundPaid) <==> !a.send.TransportError?)
            && s'.sends == s.sends + [Sent(h, s.workers[w].invoice)]
            && (a.send.TransportError? ==> StatusIs(s'.desk, h, Inv.OutboundPending) && Undone(s'.desk, SendKey(h)))
  {
    var h := s.workers[w].hash;
    assert WorkerInv(env, s.desk, s.claims, s.workers[w]);
    var s1 := Exec(env, s, Go(w, a));
    assert s1.desk == s.desk;
    if a.send.TransportError? {
      assert s1.workers[w] == Report(h, SendOutboundPayment, false);
    } else {
      assert s1.workers[w] == SendMark(h);
    }
  }

  // ---------------------------------------------------------------- a run that gets there

  /** Some height is early enough for every gate on the way. */
  predicate GatesOpen(cfg: Config, deadline: Uint32, height: Int64) {
    && GateOpens(deadline, height, InboundRequired(cfg)) && GateOpens(deadline, height, OutboundRequired(cfg))
    && GateOpens(deadline, height, ResponseRequired(cfg))
  }

  lemma {:induction false} RunConcat(env: Env, s: System, a: seq<Event>, b: seq<Event>)
    ensures Run(env, s, a + b) == Run(env, Run(env, s, a), b)
    decreases |a|
  {
    if a == [] {
      assert a + b == b;
    } else {
      assert (a + b)[0] == a[0] && (a + b)[1..] == a[1..] + b;
      RunConcat(env, Exec(env, s, a[0]), a[1..], b);
    }
  }

  lemma RunTwo(env: Env, s: System, a: Event, b: Event)
    ensures Run(env, s, [a, b]) == Exec(env, Exec(env, s, a), b)
  {
    assert [a, b][1..] == [b] && [b][1..] == [];
    assert Run(env, Exec(env, Exec(env, s, a), b), []) == Exec(env, Exec(env, s, a), b);
  }

  /** Reserved, finalized, held, and its request job taken. */
  lemma RequestTaken(env: Env, h: string, amount: nat, deadline: Uint32, height: Int64) returns (es: seq<Event>)
    requires amount > 0 && deadline > 0 && GatesOpen(env.cfg, deadline, height)
    ensures var s := Run(env, IDLE, es);
            && s.sends == [] && 1 in s.workers && s.workers[1] == ReqLoad(h) && s.now == 0
            && s.desk.rows == map[h := Inv.Invoice(1, h, amount, Inv.Claimable, Some("lnbc"), Some(deadline), None, None)]
            && SendKey(h) !in s.desk.jobs && ReqKey(h) in s.desk.jobs
  {
    var s1 := Exec(env, IDLE, Reserve(h, 1, amount));
    var s2 := Exec(env, s1, Finalize(h, "lnbc"));
    assert s2.desk.rows == map[h := Inv.Invoice(1, h, amount, Inv.Active, Some("lnbc"), None, None, None)];
    var s3 := Exec(env, s2, HtlcHeld(h, amount, deadline, Some(height)));
    assert s3.desk.jobs == map[ReqKey(h) := Job(1, JobStatus.Pending, 0, 0, None)];
    RunTwo(env, IDLE, Reserve(h, 1, amount), Finalize(h, "lnbc"));
    RunTwo(env, s2, HtlcHeld(h, amount, deadline, Some(height)), TakeJob(1, ReqKey(h)));
    es := [Reserve(h, 1, amount), Finalize(h, "lnbc")] + [HtlcHeld(h, amount, deadline, Some(height)), TakeJob(1, ReqKey(h))];
    RunConcat(env, IDLE, [Reserve(h, 1, amount), Finalize(h, "lnbc")],
              [HtlcHeld(h, amount, deadline, Some(height)), TakeJob(1, ReqKey(h))]);
  }

  lemma RecipientAnswers(env: Env, d: Desk, now: int, h: string, row: Inv.Invoice, a: Bodies.Answers)
    requires StatusIs(d, h, Inv.OutboundRequested) && row.claimDeadline.Some? && d.rows[h].outboundInvoice == None
    requires a.later.height.Some? && a.later.outbound.Some? && a.later.outbound != Some("")
    requires GateOpens(row.claimDeadline.value, a.later.height.value, ResponseRequired(env.cfg))
    ensures var o := Bodies.Finish(env, d, now, ReqReload(h, row), a);
            && o.ok && o.sends == [] && StatusIs(o.desk, h, Inv.OutboundPending) && o.desk.rows[h].outboundInvoice == a.later.outbound
            && o.desk.jobs == Enqueued(d.jobs, SendKey(h), now)
  {
    Bodies.ReloadOutcome(env, d, now, h, row, a);
    Bodies.CallingOutcome(env, d, now, h, row, a);
    Inv.MarkTransitionsIff(env.sha, d.rows[h], Inv.MarkOutboundPending(a.later.outbound.value));
  }

  /** The request job of a claimable row, answered in time, leaves it outbound_pending. */
  lemma RequestSucceeds(env: Env, d: Desk, now: int, h: string, a: Bodies.Answers)
    requires StatusIs(d, h, Inv.Claimable) && d.rows[h].claimDeadline.Some? && d.rows[h].outboundInvoice == None
    requires a.gate.height.Some? && a.gate.accountKnown && a.later.height.Some? && a.later.outbound.Some? && a.later.outbound != Some("")
    requires GateOpens(d.rows[h].claimDeadline.value, a.gate.height.value, OutboundRequired(env.cfg))
    requires GateOpens(d.rows[h].claimDeadline.value, a.later.height.value, ResponseRequired(env.cfg))
    ensures var o := Bodies.Finish(env, d, now, ReqLoad(h), a);
            && o.ok && o.sends == [] && StatusIs(o.desk, h, Inv.OutboundPending) && o.desk.rows[h].outboundInvoice == a.later.outbound
            && o.desk.jobs == Enqueued(d.jobs, SendKey(h), now)
  {
    var row := d.rows[h];
    Bodies.LoadingOutcome(env, d, now, h, a);
    Bodies.GateOutcome(env, d, now, h, row, a);
    Bodies.MarkingOutcome(env, d, now, h, row, a);
    var d1 := MarkTx(env, d, h, Inv.MarkOutboundRequested, None, now);
    assert StatusIs(d1, h, Inv.OutboundRequested) && d1.jobs == d.jobs && d1.rows[h].outboundInvoice == None;
    RecipientAnswers(env, d1, now, h, row, a);
  }

  /** A worker reports its request done, takes the send job, and loads it. */
  lemma SendLoaded(env: Env, s: System, h: string, invoice: string, a: Answer) returns (es: seq<Event>)
    requires 1 in s.workers && s.workers[1].Report? && s.workers[1].ok
    requires s.workers[1].hash == h && s.workers[1].action == RequestOutboundInvoice
    requires StatusIs(s.desk, h, Inv.OutboundPending) && s.desk.rows[h].outboundInvoice == Some(invoice) && invoice != ""
    requires SendKey(h) in s.desk.jobs && Eligible(s.desk.jobs[SendKey(h)], s.now)
    ensures var s' := Run(env, s, es);
            && s'.sends == s.sends && s'.desk.rows == s.desk.rows && 1 in s'.workers && s'.workers[1] == SendCall(h, invoice)
  {
    var s1 := Exec(env, s, Go(1, a));
    assert s1.desk.jobs[SendKey(h)] == s.desk.jobs[SendKey(h)] && 1 !in s1.workers && s1.desk.rows == s.desk.rows;
    var s2 := Exec(env, s1, TakeJob(1, SendKey(h)));
    assert s2.workers[1] == SendLoad(h) && s2.desk.rows == s.desk.rows && s2.sends == s.sends;
    es := [Go(1, a), TakeJob(1, SendKey(h))] + [Go(1, a)];
    RunTwo(env, s, Go(1, a), TakeJob(1, SendKey(h)));
    RunConcat(env, s, [Go(1, a), TakeJob(1, SendKey(h))], [Go(1, a)]);
    assert [Go(1, a)][1..] == [];
    assert Run(env, s2, [Go(1, a)]) == Exec(env, s2, Go(1, a));
  }

  /** From the empty service to a pending row whose request job is about to be reported. */
  lemma PendingReached(env: Env, h: string, amount: nat, deadline: Uint32, height: Int64) returns (es: seq<Event>)
    requires amount > 0 && deadline > 0 && GatesOpen(env.cfg, deadline, height)
    ensures var s := Run(env, IDLE, es);
            && s.sends == [] && 1 in s.workers && s.workers[1] == Report(h, RequestOutboundInvoice, true)
            && StatusIs(s.desk, h, Inv.OutboundPending) && s.desk.rows[h].outboundInvoice == Some("lnbc")
            && SendKey(h) in s.desk.jobs && Eligible(s.desk.jobs[SendKey(h)], s.now)
  {
    var answer := Answer(Some(height), true, Some("lnbc"), ReportedFailed, false);
    var a := Bodies.Answers(answer, answer);
    var take := RequestTaken(env, h, amount, deadline, height);
    var s1 := Run(env, IDLE, take);
    RequestSucceeds(env, s1.desk, s1.now, h, a);
    var request := Bodies.FinishIsARun(env, s1, 1, a);
    es := take + request;
    RunConcat(env, IDLE, take, request);
  }

  /** From the empty service a worker gets to sending for a pending row; the node reports the
      one payment failed, and the row is recorded paid. */
  lemma FailedPaymentIsRecordedPaid(env: Env, h: string, amount: nat, deadline: Uint32, height: Int64, failed: Answer)
    returns (es: seq<Event>)
    requires amount > 0 && deadline > 0 && GatesOpen(env.cfg, deadline, height) && failed.send.ReportedFailed?
    ensures var s := Run(env, IDLE, es);
            s.sends == [] && 1 in s.workers && s.workers[1].SendCall? && StatusIs(s.desk, h, Inv.OutboundPending)
    ensures var s := Run(env, IDLE, es + [Go(1, failed), Go(1, failed)]);
            |s.sends| == 1 && StatusIs(s.desk, h, Inv.OutboundPaid)
  {
    var pending := PendingReached(env, h, amount, deadline, height);
    var s2 := Run(env, IDLE, pending);
    var load := SendLoaded(env, s2, h, "lnbc", failed);
    es := pending + load;
    RunConcat(env, IDLE, pending, load);
    IdleInv(env);
    RunKeeps(env, IDLE, es);
    RunConcat(env, IDLE, es, [Go(1, failed), Go(1, failed)]);
    RunTwo(env, Run(env, s2, load), Go(1, failed), Go(1, failed));
    SendRecordsPaidIff(env, Run(env, s2, load), 1, failed);
  }
}
