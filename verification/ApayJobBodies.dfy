/** The hosted-address job bodies as they run when nothing interferes: each is shown to do
    exactly what the transition system's worker does step by step. */
module ApayJobBodies {
  import opened Wrappers
  import opened DeadlinePolicy
  import opened Outbox
  import opened ApayJobs
  import Inv = ApayInvoice

  datatype Outcome = Outcome(desk: Desk, sends: seq<Sent>, claims: set<Claim>, ok: bool)

  /** Answers of the first gate and of everything later. */
  datatype Answers = Answers(gate: Answer, later: Answer)

  function AnswerAt(pc: Pc, a: Answers): Answer {
    if pc.ReqGate? then a.gate else a.later
  }

  /** A bound on the steps left. */
  function StepsLeft(pc: Pc): nat {
    match pc
    case ReqLoad(_) => 7
    case ReqGate(_, _) => 6
    case ReqFail(_) => 2
    case ReqMark(_, _) => 5
    case ReqReload(_, _) => 4
    case ReqCall(_, _) => 3
    case ReqPend(_, _) => 2
    case SendLoad(_) => 4
    case SendCall(_, _) => 3
    case SendMark(_) => 2
    case ClaimLoad(_) => 4
    case ClaimCall(_, _) => 3
    case ClaimMark(_) => 2
    case Recheck(_, _, _) => 1
    case Report(_, _, _) => 0
  }

  lemma NextIsCloser(env: Env, d: Desk, now: int, pc: Pc, a: Answer)
    requires !pc.Report?
    ensures StepsLeft(WorkerStep(env, d, now, pc, a).next) < StepsLeft(pc)
  {}

  /** What a worker does from here to its report, undisturbed. */
  function Finish(env: Env, d: Desk, now: int, pc: Pc, a: Answers): Outcome
    decreases StepsLeft(pc)
  {
    if pc.Report? then Nothing(d, pc.ok)
    else
      NextIsCloser(env, d, now, pc, AnswerAt(pc, a));
      var m := WorkerStep(env, d, now, pc, AnswerAt(pc, a));
      Then(m, Finish(env, m.desk, now, m.next, a))
  }

  function Then(m: Moved, rest: Outcome): Outcome {
    Outcome(rest.desk, m.sends + rest.sends, m.claims + rest.claims, rest.ok)
  }

  function Nothing(d: Desk, ok: bool): Outcome { Outcome(d, [], {}, ok) }

  /** State `s2` is where worker `w` of `s` reports what `o` says it does. */
  predicate Reports(s: System, s2: System, w: nat, o: Outcome) {
    && s2.desk == o.desk && s2.sends == s.sends + o.sends && s2.claims == s.claims + o.claims && s2.now == s.now
    && w in s.workers && w in s2.workers && s2.workers[w] == Report(s.workers[w].hash, JobOf(s.workers[w]), o.ok)
  }

  /** The job a worker is at. */
  function JobOf(pc: Pc): Action {
    if pc.Requests() then RequestOutboundInvoice
    else if pc.Sends() then SendOutboundPayment
    else if pc.Recheck? || pc.Report? then pc.action
    else ClaimInboundInvoice
  }

  lemma SameJob(env: Env, d: Desk, now: int, pc: Pc, a: Answer)
    requires !pc.Report?
    ensures var next := WorkerStep(env, d, now, pc, a).next; next.hash == pc.hash && JobOf(next) == JobOf(pc)
  {
    if pc.Requests() {
      SameRequest(env, d, now, pc, a);
    }
  }

  lemma SameRequest(env: Env, d: Desk, now: int, pc: Pc, a: Answer)
    requires pc.Requests()
    ensures var next := RequestStep(env, d, now, pc, a).next; next.hash == pc.hash && JobOf(next) == RequestOutboundInvoice
  {}

  lemma ReportsThen(s: System, s2: System, w: nat, m: Moved, rest: Outcome)
    requires Reports(Moving(s, w, m), s2, w, rest)
    requires w in s.workers && m.next.hash == s.workers[w].hash && JobOf(m.next) == JobOf(s.workers[w])
    ensures Reports(s, s2, w, Then(m, rest))
  {
    assert (s.sends + m.sends) + rest.sends == s.sends + (m.sends + rest.sends);
    assert (s.claims + m.claims) + rest.claims == s.claims + (m.claims + rest.claims);
  }

  lemma RunFirst(env: Env, s: System, e: Event, es: seq<Event>)
    ensures Run(env, s, [e] + es) == Run(env, Exec(env, s, e), es)
  {
    assert ([e] + es)[1..] == es;
  }

  /** A job body run to its end is one of the interleavings: the worker goes on alone until
      it has something to report. */
  lemma {:induction false} FinishIsARun(env: Env, s: System, w: nat, a: Answers) returns (es: seq<Event>)
    requires w in s.workers
    ensures forall i :: 0 <= i < |es| ==> es[i].Go? && es[i].worker == w
    ensures Reports(s, Run(env, s, es), w, Finish(env, s.desk, s.now, s.workers[w], a))
    decreases StepsLeft(s.workers[w])
  {
    if s.workers[w].Report? {
      es := [];
      assert s.sends + [] == s.sends && s.claims + {} == s.claims;
    } else {
      var answer := AnswerAt(s.workers[w], a);
      var m := WorkerStep(env, s.desk, s.now, s.workers[w], answer);
      NextIsCloser(env, s.desk, s.now, s.workers[w], answer);
      SameJob(env, s.desk, s.now, s.workers[w], answer);
      var rest := FinishIsARun(env, Moving(s, w, m), w, a);
      es := [Go(w, answer)] + rest;
      RunFirst(env, s, Go(w, answer), rest);
      ReportsThen(s, Run(env, s, es), w, m, Finish(env, m.desk, s.now, m.next, a));
    }
  }

  lemma QuietStep(env: Env, d: Desk, now: int, pc: Pc, a: Answers, d': Desk, next: Pc)
    requires !pc.Report? && WorkerStep(env, d, now, pc, AnswerAt(pc, a)) == Just(d', next)
    ensures Finish(env, d, now, pc, a) == Finish(env, d', now, next, a)
  {
    ThenNothing(Just(d', next), Finish(env, d', now, next, a));
  }

  lemma ThenNothing(m: Moved, rest: Outcome)
    requires m.sends == [] && m.claims == {}
    ensures Then(m, rest) == rest
  {
    assert [] + rest.sends == rest.sends && {} + rest.claims == rest.claims;
  }

  lemma Reported(env: Env, d: Desk, now: int, h: string, action: Action, ok: bool, a: Answers)
    ensures Finish(env, d, now, Report(h, action, ok), a) == Nothing(d, ok)
  {}

  lemma Rechecked(env: Env, d: Desk, now: int, h: string, action: Action, floor: Inv.Status, a: Answers)
    ensures Finish(env, d, now, Recheck(h, action, floor), a) == Nothing(d, StatusAtOrBeyond(d, h, floor))
  {
    QuietStep(env, d, now, Recheck(h, action, floor), a, d, Report(h, action, StatusAtOrBeyond(d, h, floor)));
    Reported(env, d, now, h, action, StatusAtOrBeyond(d, h, floor), a);
  }

  /** Whether a job succeeds after its conditional update. */
  predicate Succeeds(env: Env, d: Desk, h: string, m: Inv.Mark, floor: Inv.Status) {
    ApayJobs.Outcome(env, d, h, m).Transitioned? || (ApayJobs.Outcome(env, d, h, m).AlreadyBeyond? && StatusAtOrBeyond(d, h, floor))
  }

  lemma AfterMarkFinish(env: Env, d: Desk, now: int, h: string, outcome: Inv.MarkResult, action: Action, floor: Inv.Status, a: Answers)
    ensures Finish(env, d, now, AfterMark(h, outcome, action, floor), a)
            == Nothing(d, outcome.Transitioned? || (outcome.AlreadyBeyond? && StatusAtOrBeyond(d, h, floor)))
  {
    if outcome.AlreadyBeyond? {
      Rechecked(env, d, now, h, action, floor, a);
    } else {
      Reported(env, d, now, h, action, outcome.Transitioned?, a);
    }
  }

  lemma Marked(env: Env, d: Desk, now: int, pc: Pc, a: Answers, h: string, m: Inv.Mark, job: Option<Action>, action: Action, floor: Inv.Status)
    requires !pc.Report?
    requires WorkerStep(env, d, now, pc, AnswerAt(pc, a))
             == Just(MarkTx(env, d, h, m, job, now), AfterMark(h, ApayJobs.Outcome(env, d, h, m), action, floor))
    ensures Finish(env, d, now, pc, a) == Nothing(MarkTx(env, d, h, m, job, now), Succeeds(env, d, h, m, floor))
  {
    var d' := MarkTx(env, d, h, m, job, now);
    var outcome := ApayJobs.Outcome(env, d, h, m);
    QuietStep(env, d, now, pc, a, d', AfterMark(h, outcome, action, floor));
    AfterMarkFinish(env, d', now, h, outcome, action, floor, a);
    assert outcome.AlreadyBeyond? ==> d' == d;
  }

  // ---------------------------------------------------------------- what each stretch comes to

  const REQUEST := RequestOutboundInvoice

  predicate ResponseRefused(env: Env, row: Inv.Invoice, a: Answer) {
    a.outbound == None || a.height == None || row.claimDeadline == None
    || !GateOpens(row.claimDeadline.value, a.height.value, ResponseRequired(env.cfg))
  }

  lemma CallingOutcome(env: Env, d: Desk, now: int, h: string, row: Inv.Invoice, a: Answers)
    ensures Finish(env, d, now, ReqCall(h, row), a)
            == if ResponseRefused(env, row, a.later) then Nothing(d, false)
               else var m := Inv.MarkOutboundPending(a.later.outbound.value);
                    Nothing(MarkTx(env, d, h, m, Some(SendOutboundPayment), now), Succeeds(env, d, h, m, Inv.OutboundPending))
  {
    if ResponseRefused(env, row, a.later) {
      QuietStep(env, d, now, ReqCall(h, row), a, d, Report(h, REQUEST, false));
      Reported(env, d, now, h, REQUEST, false, a);
    } else {
      var invoice := a.later.outbound.value;
      QuietStep(env, d, now, ReqCall(h, row), a, d, ReqPend(h, invoice));
      Marked(env, d, now, ReqPend(h, invoice), a, h, Inv.MarkOutboundPending(invoice), Some(SendOutboundPayment), REQUEST, Inv.OutboundPending);
    }
  }

  lemma ReloadOutcome(env: Env, d: Desk, now: int, h: string, row: Inv.Invoice, a: Answers)
    ensures Finish(env, d, now, ReqReload(h, row), a)
            == if StatusAtOrBeyond(d, h, Inv.OutboundPending) then Nothing(d, true)
               else if h in d.rows && d.rows[h].status.OutboundRequested? then Finish(env, d, now, ReqCall(h, row), a)
               else Nothing(d, false)
  {
    if !StatusAtOrBeyond(d, h, Inv.OutboundPending) && h in d.rows && d.rows[h].status.OutboundRequested? {
      QuietStep(env, d, now, ReqReload(h, row), a, d, ReqCall(h, row));
    } else {
      var ok := StatusAtOrBeyond(d, h, Inv.OutboundPending);
      QuietStep(env, d, now, ReqReload(h, row), a, d, Report(h, REQUEST, ok));
      Reported(env, d, now, h, REQUEST, ok, a);
    }
  }

  /** After an open gate. */
  lemma MarkingOutcome(env: Env, d: Desk, now: int, h: string, row: Inv.Invoice, a: Answers)
    ensures Finish(env, d, now, ReqMark(h, row), a)
            == if ApayJobs.Outcome(env, d, h, Inv.MarkOutboundRequested).NotFound? then Nothing(d, false)
               else Finish(env, MarkTx(env, d, h, Inv.MarkOutboundRequested, None, now), now, ReqReload(h, row), a)
  {
    var m := Inv.MarkOutboundRequested;
    if ApayJobs.Outcome(env, d, h, m).NotFound? {
      QuietStep(env, d, now, ReqMark(h, row), a, d, Report(h, REQUEST, false));
      Reported(env, d, now, h, REQUEST, false, a);
    } else {
      QuietStep(env, d, now, ReqMark(h, row), a, MarkTx(env, d, h, m, None, now), ReqReload(h, row));
    }
  }

  lemma GateOutcome(env: Env, d: Desk, now: int, h: string, row: Inv.Invoice, a: Answers)
    requires row.claimDeadline.Some?
    ensures Finish(env, d, now, ReqGate(h, row), a)
            == if a.gate.height == None then Nothing(d, false)
               else if !GateOpens(row.claimDeadline.value, a.gate.height.value, OutboundRequired(env.cfg))
               then Nothing(MarkTx(env, d, h, Inv.MarkFailed, None, now), Succeeds(env, d, h, Inv.MarkFailed, Inv.OutboundPending))
               else if !a.gate.accountKnown then Nothing(d, false)
               else Finish(env, d, now, if row.status.Claimable? then ReqMark(h, row) else ReqReload(h, row), a)
  {
    if a.gate.height == None {
      QuietStep(env, d, now, ReqGate(h, row), a, d, Report(h, REQUEST, false));
      Reported(env, d, now, h, REQUEST, false, a);
    } else if !GateOpens(row.claimDeadline.value, a.gate.height.value, OutboundRequired(env.cfg)) {
      QuietStep(env, d, now, ReqGate(h, row), a, d, ReqFail(h));
      Marked(env, d, now, ReqFail(h), a, h, Inv.MarkFailed, None, REQUEST, Inv.OutboundPending);
    } else if !a.gate.accountKnown {
      QuietStep(env, d, now, ReqGate(h, row), a, d, Report(h, REQUEST, false));
      Reported(env, d, now, h, REQUEST, false, a);
    } else {
      QuietStep(env, d, now, ReqGate(h, row), a, d, if row.status.Claimable? then ReqMark(h, row) else ReqReload(h, row));
    }
  }

  predicate WaitsForRequest(d: Desk, h: string) {
    && h in d.rows && !d.rows[h].status.Reserved? && !d.rows[h].status.Active?
    && !d.rows[h].status.AtOrBeyond(Inv.OutboundPending) && d.rows[h].claimDeadline.Some?
  }

  lemma LoadingOutcome(env: Env, d: Desk, now: int, h: string, a: Answers)
    ensures Finish(env, d, now, ReqLoad(h), a)
            == if WaitsForRequest(d, h) then Finish(env, d, now, ReqGate(h, d.rows[h]), a)
               else Nothing(d, StatusAtOrBeyond(d, h, Inv.OutboundPending))
  {
    if WaitsForRequest(d, h) {
      QuietStep(env, d, now, ReqLoad(h), a, d, ReqGate(h, d.rows[h]));
    } else {
      var ok := StatusAtOrBeyond(d, h, Inv.OutboundPending);
      QuietStep(env, d, now, ReqLoad(h), a, d, Report(h, REQUEST, ok));
      Reported(env, d, now, h, REQUEST, ok, a);
    }
  }

  predicate WaitsForPayment(d: Desk, h: string) {
    h in d.rows && d.rows[h].status.OutboundPending? && d.rows[h].outboundInvoice.Some? && d.rows[h].outboundInvoice.value != ""
  }

  lemma SendingOutcome(env: Env, d: Desk, now: int, h: string, a: Answers)
    ensures Finish(env, d, now, SendLoad(h), a)
            == if !WaitsForPayment(d, h) then Nothing(d, StatusAtOrBeyond(d, h, Inv.OutboundPaid))
               else (if a.later.send.TransportError? then Nothing(d, false)
                     else Nothing(MarkTx(env, d, h, Inv.MarkOutboundPaid, None, now), true))
                    .(sends := [Sent(h, d.rows[h].outboundInvoice.value)])
  {
    if !WaitsForPayment(d, h) {
      var ok := StatusAtOrBeyond(d, h, Inv.OutboundPaid);
      QuietStep(env, d, now, SendLoad(h), a, d, Report(h, SendOutboundPayment, ok));
      Reported(env, d, now, h, SendOutboundPayment, ok, a);
    } else {
      QuietStep(env, d, now, SendLoad(h), a, d, SendCall(h, d.rows[h].outboundInvoice.value));
      Reported(env, d, now, h, SendOutboundPayment, false, a);
      Marked(env, d, now, SendMark(h), a, h, Inv.MarkOutboundPaid, None, SendOutboundPayment, Inv.OutboundPaid);
    }
  }

  predicate WaitsForClaim(d: Desk, h: string) {
    h in d.rows && d.rows[h].status.OutboundClaimed? && d.rows[h].preimage.Some?
  }

  lemma ClaimingOutcome(env: Env, d: Desk, now: int, h: string, a: Answers)
    ensures Finish(env, d, now, ClaimLoad(h), a)
            == if !WaitsForClaim(d, h) then Nothing(d, StatusAtOrBeyond(d, h, Inv.InboundClaimed))
               else if !a.later.claimed then Nothing(d, false)
               else Nothing(MarkTx(env, d, h, Inv.MarkInboundClaimed, None, now), true).(claims := {Claim(h, d.rows[h].preimage.value)})
  {
    if !WaitsForClaim(d, h) {
      var ok := StatusAtOrBeyond(d, h, Inv.InboundClaimed);
      QuietStep(env, d, now, ClaimLoad(h), a, d, Report(h, ClaimInboundInvoice, ok));
      Reported(env, d, now, h, ClaimInboundInvoice, ok, a);
    } else {
      QuietStep(env, d, now, ClaimLoad(h), a, d, ClaimCall(h, d.rows[h].preimage.value));
      Reported(env, d, now, h, ClaimInboundInvoice, false, a);
      Marked(env, d, now, ClaimMark(h), a, h, Inv.MarkInboundClaimed, None, ClaimInboundInvoice, Inv.InboundClaimed);
    }
  }

  // ---------------------------------------------------------------- the bodies

  class ApayService {
    const env: Env
    var rows: map<string, Inv.Invoice>
    var jobs: map<JobKey, Job>
    var sends: seq<Sent>
    var claims: set<Claim>

    constructor (env: Env)
      ensures this.env == env && Value() == Desk(map[], map[]) && sends == [] && claims == {}
    {
      this.env := env;
      rows, jobs, sends, claims := map[], map[], [], {};
    }

    function Value(): Desk
      reads this
    {
      Desk(rows, jobs)
    }

    /** A conditional status update and its job, in one transaction. */
    method Transition(h: string, m: Inv.Mark, job: Option<Action>, now: int) returns (outcome: Inv.MarkResult)
      modifies this`rows, this`jobs
      ensures Value() == MarkTx(env, old(Value()), h, m, job, now)
      ensures outcome == ApayJobs.Outcome(env, old(Value()), h, m)
    {
      if h !in rows {
        return Inv.NotFound;
      }
      outcome := Inv.MarkOutcome(env.sha, rows[h], m);
      if outcome.Transitioned? {
        rows := rows[h := Inv.Updated(rows[h], m)];
        if job.Some? && JobKey(h, job.value) !in jobs {
          jobs := jobs[JobKey(h, job.value) := Job(|jobs| + 1, JobStatus.Pending, 0, now, None)];
        }
      }
    }

    /** After an update: done when it moved the row, or when the row is far enough already. */
    method Settle(h: string, outcome: Inv.MarkResult, floor: Inv.Status) returns (ok: bool)
      ensures ok == (outcome.Transitioned? || (outcome.AlreadyBeyond? && StatusAtOrBeyond(Value(), h, floor)))
    {
      if outcome.Transitioned? {
        return true;
      }
      if outcome.AlreadyBeyond? {
        return h in rows && rows[h].status.AtOrBeyond(floor);
      }
      return false;
    }

    method RequestOutboundInvoiceJob(h: string, now: int, a: Answers) returns (ok: bool)
      modifies this`rows, this`jobs
      ensures var o := Finish(env, old(Value()), now, ReqLoad(h), a);
              Value() == o.desk && o.sends == [] && o.claims == {} && ok == o.ok
    {
      LoadingOutcome(env, Value(), now, h, a);
      if h !in rows || rows[h].status.Reserved? || rows[h].status.Active? {
        return false;
      }
      var row := rows[h];
      if row.status.AtOrBeyond(Inv.OutboundPending) {
        return true;
      }
      if row.claimDeadline == None {
        return false;
      }
      GateOutcome(env, Value(), now, h, row, a);
      if a.gate.height == None {
        return false;
      }
      if !GateOpens(row.claimDeadline.value, a.gate.height.value, OutboundRequired(env.cfg)) {
        var failed := Transition(h, Inv.MarkFailed, None, now);
        ok := Settle(h, failed, Inv.OutboundPending);
        return ok;
      }
      if !a.gate.accountKnown {
        return false;
      }
      if row.status.Claimable? {
        MarkingOutcome(env, Value(), now, h, row, a);
        var requested := Transition(h, Inv.MarkOutboundRequested, None, now);
        if requested.NotFound? {
          return false;
        }
      }
      ok := AskRecipient(h, row, now, a);
    }

    method AskRecipient(h: string, row: Inv.Invoice, now: int, a: Answers) returns (ok: bool)
      modifies this`rows, this`jobs
      ensures var o := Finish(env, old(Value()), now, ReqReload(h, row), a);
              Value() == o.desk && o.sends == [] && o.claims == {} && ok == o.ok
    {
      ReloadOutcome(env, Value(), now, h, row, a);
      CallingOutcome(env, Value(), now, h, row, a);
      if h in rows && rows[h].status.AtOrBeyond(Inv.OutboundPending) {
        return true;
      }
      if h !in rows || !rows[h].status.OutboundRequested? {
        return false;
      }
      if a.later.outbound == None {
        return false;
      }
      if row.claimDeadline == None || a.later.height == None
         || !GateOpens(row.claimDeadline.value, a.later.height.value, ResponseRequired(env.cfg)) {
        return false;
      }
      var pending := Transition(h, Inv.MarkOutboundPending(a.later.outbound.value), Some(SendOutboundPayment), now);
      ok := Settle(h, pending, Inv.OutboundPending);
    }

    method SendOutboundPaymentJob(h: string, now: int, a: Answers) returns (ok: bool)
      modifies this`rows, this`jobs, this`sends
      ensures var o := Finish(env, old(Value()), now, SendLoad(h), a);
              Value() == o.desk && sends == old(sends) + o.sends && o.claims == {} && ok == o.ok
    {
      SendingOutcome(env, Value(), now, h, a);
      if h in rows && rows[h].status.AtOrBeyond(Inv.OutboundPaid) {
        return true;
      }
      if h !in rows || !rows[h].status.OutboundPending? {
        return false;
      }
      if rows[h].outboundInvoice == None || rows[h].outboundInvoice.value == "" {
        return false;
      }
      sends := sends + [Sent(h, rows[h].outboundInvoice.value)];
      if a.later.send.TransportError? {
        return false;
      }
      var paid := Transition(h, Inv.MarkOutboundPaid, None, now);
      ok := Settle(h, paid, Inv.OutboundPaid);
    }

    method ClaimInboundInvoiceJob(h: string, now: int, a: Answers) returns (ok: bool)
      modifies this`rows, this`jobs, this`claims
      ensures var o := Finish(env, old(Value()), now, ClaimLoad(h), a);
              Value() == o.desk && claims == old(claims) + o.claims && o.sends == [] && ok == o.ok
    {
      ClaimingOutcome(env, Value(), now, h, a);
      if h in rows && rows[h].status.AtOrBeyond(Inv.InboundClaimed) {
        return true;
      }
      if h !in rows || !rows[h].status.OutboundClaimed? {
        return false;
      }
      if rows[h].preimage == None {
        return false;
      }
      if !a.later.claimed {
        return false;
      }
      claims := claims + {Claim(h, rows[h].preimage.value)};
      var claimed := Transition(h, Inv.MarkInboundClaimed, None, now);
      ok := Settle(h, claimed, Inv.InboundClaimed);
    }
  }
}
