/** What every interleaving of the hosted-address flow keeps. */
module ApayJobRuns {
  import opened Wrappers
  import opened DeadlinePolicy
  import opened Outbox
  import opened ApayJobs
  import Inv = ApayInvoice

  predicate StatusIs(d: Desk, h: string, status: Inv.Status) {
    h in d.rows && d.rows[h].status == status
  }

  predicate HasJob(d: Desk, key: JobKey) { key in d.jobs }

  predicate JobDone(d: Desk, key: JobKey) {
    key in d.jobs && d.jobs[key].status == Done
  }

  predicate Undone(d: Desk, key: JobKey) { HasJob(d, key) && !JobDone(d, key) }

  ghost predicate ClaimedWithPreimage(env: Env, claims: set<Claim>, h: string) {
    exists p :: Claim(h, p) in claims && env.sha(p) == h
  }

  /** The status a job's success stands for. */
  function Goal(action: Action): Inv.Status {
    match action
    case RequestOutboundInvoice => Inv.OutboundPending
    case SendOutboundPayment => Inv.OutboundPaid
    case _ => Inv.InboundClaimed
  }

  // ---------------------------------------------------------------- the invariant

  predicate FieldsInv(env: Env, h: string, row: Inv.Invoice) {
    && row.paymentHash == h
    && (row.claimDeadline.Some? ==> row.claimDeadline.value > 0)
    && (row.outboundInvoice.Some? ==> row.outboundInvoice.value != "")
    && (row.preimage.Some? ==> env.sha(row.preimage.value) == h)
    && (row.status in {Inv.Claimable, Inv.OutboundRequested} ==> row.claimDeadline.Some?)
    && (row.status.OutboundPending? ==> row.outboundInvoice.Some?)
    && (row.status.OutboundClaimed? ==> row.preimage.Some?)
    && !row.status.InboundCancelled? && !row.status.OutboundCancelled?
  }

  /** Each status has the job that drives it on. */
  predicate JobsInv(d: Desk, h: string) {
    && (StatusIs(d, h, Inv.Claimable) || StatusIs(d, h, Inv.OutboundRequested) ==> HasJob(d, ReqKey(h)))
    && (StatusIs(d, h, Inv.OutboundPending) ==> HasJob(d, SendKey(h)))
    && (StatusIs(d, h, Inv.OutboundClaimed) ==> HasJob(d, ClaimKey(h)))
    && (HasJob(d, ReqKey(h)) ==> StatusAtOrBeyond(d, h, Inv.Claimable))
    && (HasJob(d, SendKey(h)) ==> StatusAtOrBeyond(d, h, Inv.OutboundPending))
    && (HasJob(d, ClaimKey(h)) ==> StatusIs(d, h, Inv.OutboundClaimed) || StatusIs(d, h, Inv.InboundClaimed))
    && (JobDone(d, ReqKey(h)) ==> StatusAtOrBeyond(d, h, Inv.OutboundPending))
    && (JobDone(d, SendKey(h)) ==> StatusAtOrBeyond(d, h, Inv.OutboundPaid))
    && (JobDone(d, ClaimKey(h)) ==> StatusIs(d, h, Inv.InboundClaimed))
  }

  ghost predicate RowInv(env: Env, d: Desk, claims: set<Claim>, h: string) {
    && (h in d.rows ==> FieldsInv(env, h, d.rows[h])) && JobsInv(d, h)
    && (StatusIs(d, h, Inv.InboundClaimed) ==> ClaimedWithPreimage(env, claims, h))
  }

  ghost predicate WorkerInv(env: Env, d: Desk, claims: set<Claim>, pc: Pc) {
    match pc
    case SendLoad(h) => HasJob(d, SendKey(h))
    case SendCall(h, invoice) =>
      HasJob(d, SendKey(h)) && StatusAtOrBeyond(d, h, Inv.OutboundPending) && d.rows[h].outboundInvoice == Some(invoice)
    case SendMark(h) => HasJob(d, SendKey(h))
    case ClaimLoad(h) => HasJob(d, ClaimKey(h))
    case ClaimCall(h, p) => HasJob(d, ClaimKey(h)) && env.sha(p) == h
    case ClaimMark(h) => HasJob(d, ClaimKey(h)) && ClaimedWithPreimage(env, claims, h)
    case Recheck(h, action, floor) => IsApay(action) && HasJob(d, JobKey(h, action)) && floor == Goal(action)
    case Report(h, action, ok) =>
      IsApay(action) && HasJob(d, JobKey(h, action)) && (ok ==> StatusAtOrBeyond(d, h, Goal(action)))
    case _ => HasJob(d, ReqKey(pc.hash))
  }

  ghost predicate WorkersInv(env: Env, s: System) {
    forall w :: w in s.workers ==> WorkerInv(env, s.desk, s.claims, s.workers[w])
  }

  ghost predicate SendsInv(d: Desk, sends: seq<Sent>) {
    forall i :: 0 <= i < |sends| ==>
      && StatusAtOrBeyond(d, sends[i].hash, Inv.OutboundPending)
      && d.rows[sends[i].hash].outboundInvoice == Some(sends[i].invoice)
  }

  ghost predicate ClaimsMatch(env: Env, claims: set<Claim>) {
    forall c :: c in claims ==> env.sha(c.preimage) == c.hash
  }

  ghost predicate SystemInv(env: Env, s: System) {
    && (forall h :: RowInv(env, s.desk, s.claims, h))
    && WorkersInv(env, s) && SendsInv(s.desk, s.sends) && ClaimsMatch(env, s.claims)
  }

  lemma IdleInv(env: Env)
    ensures SystemInv(env, IDLE)
  {}

  // ---------------------------------------------------------------- what one step may do

  predicate RowForward(row: Inv.Invoice, row': Inv.Invoice) {
    && row'.status.Rank() >= row.status.Rank() && (row.status.IsTerminal() ==> row' == row)
    && (row.claimDeadline.Some? ==> row'.claimDeadline == row.claimDeadline)
    && (row.outboundInvoice.Some? ==> row'.outboundInvoice == row.outboundInvoice)
    && (row.preimage.Some? ==> row'.preimage == row.preimage)
  }

  /** Rows and jobs only accumulate, statuses only rise, and what was recorded stays. */
  ghost predicate DeskForward(d: Desk, d': Desk) {
    && (forall h :: h in d.rows ==> h in d'.rows && RowForward(d.rows[h], d'.rows[h]))
    && d.jobs.Keys <= d'.jobs.Keys
  }

  ghost predicate DeskTouches(d: Desk, d': Desk, h: string) {
    && (forall g :: g != h ==> (g in d.rows <==> g in d'.rows) && (g in d.rows ==> d'.rows[g] == d.rows[g]))
    && (forall k: JobKey :: k.paymentHash != h ==>
          (k in d.jobs <==> k in d'.jobs) && (k in d.jobs ==> d'.jobs[k] == d.jobs[k]))
  }

  ghost predicate DeskStep(env: Env, d: Desk, claims: set<Claim>, d': Desk, claims': set<Claim>, h: string) {
    && DeskForward(d, d') && DeskTouches(d, d', h) && claims <= claims' && ClaimsMatch(env, claims')
    && RowInv(env, d', claims', h)
  }

  lemma MarkForward(env: Env, d: Desk, h: string, m: Inv.Mark, job: Option<Action>, now: int)
    ensures DeskForward(d, MarkTx(env, d, h, m, job, now))
    ensures DeskTouches(d, MarkTx(env, d, h, m, job, now), h)
  {
    if h in d.rows {
      Inv.MarkMovesForward(env.sha, d.rows[h], m);
      assert RowForward(d.rows[h], Inv.MarkRow(env.sha, d.rows[h], m));
    }
  }

  lemma ClaimsGrow(env: Env, claims: set<Claim>, claims': set<Claim>, h: string)
    requires claims <= claims'
    ensures ClaimedWithPreimage(env, claims, h) ==> ClaimedWithPreimage(env, claims', h)
  {
    if ClaimedWithPreimage(env, claims, h) {
      var p :| Claim(h, p) in claims && env.sha(p) == h;
      assert Claim(h, p) in claims';
    }
  }

  lemma RowsKept(env: Env, d: Desk, claims: set<Claim>, d': Desk, claims': set<Claim>, h: string)
    requires forall g :: RowInv(env, d, claims, g)
    requires DeskStep(env, d, claims, d', claims', h)
    ensures forall g :: RowInv(env, d', claims', g)
  {
    forall g ensures RowInv(env, d', claims', g) {
      assert RowInv(env, d, claims, g);
      ClaimsGrow(env, claims, claims', g);
    }
  }

  lemma WorkerKept(env: Env, d: Desk, claims: set<Claim>, d': Desk, claims': set<Claim>, pc: Pc)
    requires DeskForward(d, d') && claims <= claims' && WorkerInv(env, d, claims, pc)
    ensures WorkerInv(env, d', claims', pc)
  {
    ClaimsGrow(env, claims, claims', pc.hash);
  }

  lemma SendsKept(d: Desk, d': Desk, sends: seq<Sent>)
    requires SendsInv(d, sends) && DeskForward(d, d')
    ensures SendsInv(d', sends)
  {
    forall i | 0 <= i < |sends|
      ensures StatusAtOrBeyond(d', sends[i].hash, Inv.OutboundPending)
      ensures d'.rows[sends[i].hash].outboundInvoice == Some(sends[i].invoice)
    {
      assert RowForward(d.rows[sends[i].hash], d'.rows[sends[i].hash]);
    }
  }

  // ---------------------------------------------------------------- each update keeps the row's promises

  predicate Enqueues(m: Inv.Mark, job: Option<Action>) {
    match m
    case MarkClaimable(_, deadline) => job == Some(RequestOutboundInvoice) && deadline.Some? && deadline.value > 0
    case MarkOutboundPending(_) => job == Some(SendOutboundPayment)
    case MarkOutboundClaimed(_) => job == Some(ClaimInboundInvoice)
    case MarkInboundCancelled => false
    case MarkOutboundCancelled => false
    case _ => job == None
  }

  lemma MarkFields(env: Env, h: string, row: Inv.Invoice, m: Inv.Mark, job: Option<Action>)
    requires FieldsInv(env, h, row) && Enqueues(m, job)
    ensures FieldsInv(env, h, Inv.MarkRow(env.sha, row, m))
  {}

  /** Moving a row to a later status, with the job that status needs. */
  lemma MovedJobs(d: Desk, h: string, m: Inv.Mark, row: Inv.Invoice, job: Option<Action>, now: int)
    requires JobsInv(d, h) && Enqueues(m, job) && h in d.rows && d.rows[h].status in m.From() && row.status == m.To()
    ensures JobsInv(Desk(d.rows[h := row], if job.Some? then Enqueued(d.jobs, JobKey(h, job.value), now) else d.jobs), h)
  {}

  lemma MarkJobs(env: Env, d: Desk, h: string, m: Inv.Mark, job: Option<Action>, now: int)
    requires JobsInv(d, h) && Enqueues(m, job)
    ensures JobsInv(MarkTx(env, d, h, m, job, now), h)
  {
    if h in d.rows && Inv.MarkOutcome(env.sha, d.rows[h], m) == Inv.Transitioned {
      assert Inv.MarkRow(env.sha, d.rows[h], m).status == m.To();
      MovedJobs(d, h, m, Inv.MarkRow(env.sha, d.rows[h], m), job, now);
    }
  }

  lemma MarkRowInv(env: Env, d: Desk, claims: set<Claim>, h: string, m: Inv.Mark, job: Option<Action>, now: int)
    requires RowInv(env, d, claims, h) && Enqueues(m, job)
    requires m.MarkInboundClaimed? ==> ClaimedWithPreimage(env, claims, h)
    ensures RowInv(env, MarkTx(env, d, h, m, job, now), claims, h)
  {
    MarkJobs(env, d, h, m, job, now);
    if h in d.rows {
      MarkFields(env, h, d.rows[h], m, job);
    }
  }

  /** What a worker knows after its conditional update. */
  lemma AfterMarkKnows(env: Env, d: Desk, claims: set<Claim>, h: string, m: Inv.Mark, job: Option<Action>, now: int, action: Action)
    requires IsApay(action) && HasJob(d, JobKey(h, action)) && m.To().AtOrBeyond(Goal(action))
    ensures WorkerInv(env, MarkTx(env, d, h, m, job, now), claims, AfterMark(h, Outcome(env, d, h, m), action, Goal(action)))
  {}

  // ---------------------------------------------------------------- a worker's step

  ghost predicate Legal(env: Env, s: System, pc: Pc, m: Moved) {
    && DeskStep(env, s.desk, s.claims, m.desk, s.claims + m.claims, pc.hash)
    && WorkerInv(env, m.desk, s.claims + m.claims, m.next)
    && m.sends == (if pc.SendCall? then [Sent(pc.hash, pc.invoice)] else [])
  }

  ghost predicate Ready(env: Env, s: System, pc: Pc) {
    WorkerInv(env, s.desk, s.claims, pc) && RowInv(env, s.desk, s.claims, pc.hash) && ClaimsMatch(env, s.claims)
  }

  /** Leaving the desk alone is legal. */
  lemma IdleDesk(env: Env, s: System, pc: Pc)
    requires Ready(env, s, pc)
    ensures DeskStep(env, s.desk, s.claims, s.desk, s.claims, pc.hash)
  {}

  lemma MarkStep(env: Env, s: System, pc: Pc, m: Inv.Mark, job: Option<Action>)
    requires Ready(env, s, pc) && Enqueues(m, job)
    requires m.MarkInboundClaimed? ==> ClaimedWithPreimage(env, s.claims, pc.hash)
    ensures DeskStep(env, s.desk, s.claims, MarkTx(env, s.desk, pc.hash, m, job, s.now), s.claims, pc.hash)
  {
    MarkForward(env, s.desk, pc.hash, m, job, s.now);
    MarkRowInv(env, s.desk, s.claims, pc.hash, m, job, s.now);
  }

  lemma RequestDesk(env: Env, s: System, pc: Pc, a: Answer)
    requires pc.Requests() && Ready(env, s, pc)
    ensures DeskStep(env, s.desk, s.claims, RequestStep(env, s.desk, s.now, pc, a).desk, s.claims, pc.hash)
  {
    match pc
    case ReqFail(_) => MarkStep(env, s, pc, Inv.MarkFailed, None);
    case ReqMark(_, _) => MarkStep(env, s, pc, Inv.MarkOutboundRequested, None);
    case ReqPend(_, invoice) => MarkStep(env, s, pc, Inv.MarkOutboundPending(invoice), Some(SendOutboundPayment));
    case _ => IdleDesk(env, s, pc);
  }

  predicate RequestMarks(pc: Pc) { pc.ReqFail? || pc.ReqMark? || pc.ReqPend? }

  lemma RequestReads(env: Env, s: System, pc: Pc, a: Answer)
    requires pc.Requests() && !RequestMarks(pc) && Ready(env, s, pc)
    ensures var m := RequestStep(env, s.desk, s.now, pc, a);
            WorkerInv(env, m.desk, s.claims, m.next) && m.sends == [] && m.claims == {}
  {}

  lemma RequestWrites(env: Env, s: System, pc: Pc, a: Answer)
    requires RequestMarks(pc) && Ready(env, s, pc)
    ensures var m := RequestStep(env, s.desk, s.now, pc, a);
            WorkerInv(env, m.desk, s.claims, m.next) && m.sends == [] && m.claims == {}
  {
    match pc
    case ReqFail(h) =>
      AfterMarkKnows(env, s.desk, s.claims, h, Inv.MarkFailed, None, s.now, RequestOutboundInvoice);
    case ReqPend(h, invoice) =>
      AfterMarkKnows(env, s.desk, s.claims, h, Inv.MarkOutboundPending(invoice), Some(SendOutboundPayment), s.now,
                     RequestOutboundInvoice);
    case ReqMark(_, _) =>
  }

  lemma SendDesk(env: Env, s: System, pc: Pc, a: Answer)
    requires pc.Sends() && Ready(env, s, pc)
    ensures DeskStep(env, s.desk, s.claims, SendStep(env, s.desk, s.now, pc, a).desk, s.claims, pc.hash)
  {
    if pc.SendMark? {
      MarkStep(env, s, pc, Inv.MarkOutboundPaid, None);
    } else {
      IdleDesk(env, s, pc);
    }
  }

  lemma SendNext(env: Env, s: System, pc: Pc, a: Answer)
    requires pc.Sends() && Ready(env, s, pc)
    ensures var m := SendStep(env, s.desk, s.now, pc, a);
            && WorkerInv(env, m.desk, s.claims, m.next) && m.claims == {}
            && m.sends == (if pc.SendCall? then [Sent(pc.hash, pc.invoice)] else [])
  {}

  lemma ClaimDesk(env: Env, s: System, pc: Pc, a: Answer)
    requires !pc.Requests() && !pc.Sends() && !pc.Report? && Ready(env, s, pc)
    ensures var m := ClaimStep(env, s.desk, s.now, pc, a);
            DeskStep(env, s.desk, s.claims, m.desk, s.claims, pc.hash) && m.sends == []
            && s.claims <= s.claims + m.claims && ClaimsMatch(env, s.claims + m.claims)
            && (m.claims == {} || m.desk == s.desk)
  {
    if pc.ClaimMark? {
      MarkStep(env, s, pc, Inv.MarkInboundClaimed, None);
    } else {
      IdleDesk(env, s, pc);
    }
  }

  lemma ClaimNext(env: Env, s: System, pc: Pc, a: Answer)
    requires !pc.Requests() && !pc.Sends() && !pc.Report? && Ready(env, s, pc)
    ensures var m := ClaimStep(env, s.desk, s.now, pc, a); WorkerInv(env, m.desk, s.claims + m.claims, m.next)
  {
    if pc.ClaimCall? && a.claimed {
      assert Claim(pc.hash, pc.preimage) in s.claims + {Claim(pc.hash, pc.preimage)};
    }
  }

  lemma MoreClaims(env: Env, s: System, m: Moved, h: string)
    requires DeskStep(env, s.desk, s.claims, m.desk, s.claims, h) && ClaimsMatch(env, s.claims + m.claims)
    ensures DeskStep(env, s.desk, s.claims, m.desk, s.claims + m.claims, h)
  {
    ClaimsGrow(env, s.claims, s.claims + m.claims, h);
  }

  lemma StepLegal(env: Env, s: System, pc: Pc, a: Answer)
    requires !pc.Report? && Ready(env, s, pc)
    ensures Legal(env, s, pc, WorkerStep(env, s.desk, s.now, pc, a))
  {
    var m := WorkerStep(env, s.desk, s.now, pc, a);
    if pc.Requests() {
      RequestDesk(env, s, pc, a);
      if RequestMarks(pc) {
        RequestWrites(env, s, pc, a);
      } else {
        RequestReads(env, s, pc, a);
      }
      assert s.claims + m.claims == s.claims;
    } else if pc.Sends() {
      SendDesk(env, s, pc, a);
      SendNext(env, s, pc, a);
      assert s.claims + m.claims == s.claims;
    } else {
      ClaimDesk(env, s, pc, a);
      ClaimNext(env, s, pc, a);
      MoreClaims(env, s, m, pc.hash);
    }
  }

  lemma MovingKeeps(env: Env, s: System, w: nat, m: Moved)
    requires SystemInv(env, s) && w in s.workers && Legal(env, s, s.workers[w], m)
    ensures SystemInv(env, Moving(s, w, m))
  {
    RowsKept(env, s.desk, s.claims, m.desk, s.claims + m.claims, s.workers[w].hash);
    forall v | v in s.workers && v != w ensures WorkerInv(env, m.desk, s.claims + m.claims, s.workers[v]) {
      WorkerKept(env, s.desk, s.claims, m.desk, s.claims + m.claims, s.workers[v]);
    }
    assert WorkerInv(env, s.desk, s.claims, s.workers[w]);
    WorkerKept(env, s.desk, s.claims, m.desk, s.claims + m.claims, s.workers[w]);
    SendsKept(s.desk, m.desk, s.sends);
  }

  // ---------------------------------------------------------------- the other events

  lemma QuietKeeps(env: Env, s: System, s': System, h: string)
    requires SystemInv(env, s) && DeskStep(env, s.desk, s.claims, s'.desk, s'.claims, h)
    requires s'.sends == s.sends
    requires forall w :: w in s'.workers && !(w in s.workers && s'.workers[w] == s.workers[w]) ==>
                           WorkerInv(env, s'.desk, s'.claims, s'.workers[w])
    ensures SystemInv(env, s')
  {
    RowsKept(env, s.desk, s.claims, s'.desk, s'.claims, h);
    forall w | w in s'.workers ensures WorkerInv(env, s'.desk, s'.claims, s'.workers[w]) {
      if w in s.workers && s'.workers[w] == s.workers[w] {
        WorkerKept(env, s.desk, s.claims, s'.desk, s'.claims, s.workers[w]);
      }
    }
    SendsKept(s.desk, s'.desk, s.sends);
  }

  lemma ReserveDesk(env: Env, d: Desk, claims: set<Claim>, h: string, index: int, amount: nat)
    requires RowInv(env, d, claims, h) && ClaimsMatch(env, claims) && h !in d.rows
    ensures var row := Inv.Invoice(index, h, amount, Inv.Reserved, None, None, None, None);
            DeskStep(env, d, claims, d.(rows := d.rows[h := row]), claims, h)
  {}

  lemma SettlingDesk(env: Env, d: Desk, claims: set<Claim>, h: string, to: Inv.Status, inbound: Option<string>)
    requires RowInv(env, d, claims, h) && ClaimsMatch(env, claims) && (to == Inv.Active || to == Inv.Failed)
    ensures DeskStep(env, d, claims, Settling(d, h, to, inbound), claims, h)
  {}

  lemma CallbackKeeps(env: Env, s: System, e: Event)
    requires SystemInv(env, s) && (e.Reserve? || e.Finalize? || e.Release?)
    ensures SystemInv(env, Exec(env, s, e))
  {
    if Exec(env, s, e) != s {
      assert RowInv(env, s.desk, s.claims, e.hash);
      match e {
        case Reserve(h, index, amount) => ReserveDesk(env, s.desk, s.claims, h, index, amount);
        case Finalize(h, invoice) => SettlingDesk(env, s.desk, s.claims, h, Inv.Active, Some(invoice));
        case Release(h) => SettlingDesk(env, s.desk, s.claims, h, Inv.Failed, None);
      }
      QuietKeeps(env, s, Exec(env, s, e), e.hash);
    }
  }

  lemma WebhookKeeps(env: Env, s: System, h: string, m: Inv.Mark, job: Option<Action>)
    requires SystemInv(env, s) && Enqueues(m, job) && !m.MarkInboundClaimed?
    ensures SystemInv(env, s.(desk := MarkTx(env, s.desk, h, m, job, s.now)))
  {
    assert RowInv(env, s.desk, s.claims, h);
    MarkForward(env, s.desk, h, m, job, s.now);
    MarkRowInv(env, s.desk, s.claims, h, m, job, s.now);
    QuietKeeps(env, s, s.(desk := MarkTx(env, s.desk, h, m, job, s.now)), h);
  }

  lemma TakingDesk(env: Env, d: Desk, claims: set<Claim>, key: JobKey, now: int)
    requires RowInv(env, d, claims, key.paymentHash) && ClaimsMatch(env, claims) && key in d.jobs
    ensures DeskStep(env, d, claims, d.(jobs := d.jobs[key := HandedOut(d.jobs[key], now)]), claims, key.paymentHash)
  {}

  lemma TakingKeeps(env: Env, s: System, w: nat, key: JobKey)
    requires SystemInv(env, s) && w !in s.workers && key in s.desk.jobs && IsApay(key.action)
    ensures SystemInv(env, Taking(s, w, key))
  {
    assert RowInv(env, s.desk, s.claims, key.paymentHash);
    TakingDesk(env, s.desk, s.claims, key, s.now);
    QuietKeeps(env, s, Taking(s, w, key), key.paymentHash);
  }

  lemma ReportingKeeps(env: Env, s: System, w: nat)
    requires SystemInv(env, s) && w in s.workers && s.workers[w].Report?
    ensures SystemInv(env, Reporting(s, w))
  {
    assert WorkerInv(env, s.desk, s.claims, s.workers[w]) && RowInv(env, s.desk, s.claims, s.workers[w].hash);
    QuietKeeps(env, s, Reporting(s, w), s.workers[w].hash);
  }

  lemma StillKeeps(env: Env, s: System, s': System)
    requires SystemInv(env, s) && s'.desk == s.desk && s'.claims == s.claims && s'.sends == s.sends
    requires forall w :: w in s'.workers ==> w in s.workers && s'.workers[w] == s.workers[w]
    ensures SystemInv(env, s')
  {}

  lemma StepKeeps(env: Env, s: System, e: Event)
    requires SystemInv(env, s)
    ensures SystemInv(env, Exec(env, s, e))
  {
    match e
    case HtlcHeld(h, amount, deadline, height) =>
      if Held(env, s, h, amount, deadline, height) != s.desk {
        WebhookKeeps(env, s, h, Inv.MarkClaimable(amount, Some(deadline)), Some(RequestOutboundInvoice));
      }
    case PaymentSent(h, p) => WebhookKeeps(env, s, h, Inv.MarkOutboundClaimed(p), Some(ClaimInboundInvoice));
    case TakeJob(w, key) =>
      if Exec(env, s, e) != s {
        TakingKeeps(env, s, w, key);
      }
    case Go(w, a) =>
      if w in s.workers {
        if s.workers[w].Report? {
          ReportingKeeps(env, s, w);
        } else {
          assert Ready(env, s, s.workers[w]);
          StepLegal(env, s, s.workers[w], a);
          MovingKeeps(env, s, w, WorkerStep(env, s.desk, s.now, s.workers[w], a));
        }
      }
    case Tick(_) => StillKeeps(env, s, Exec(env, s, e));
    case Crash(_) => StillKeeps(env, s, Exec(env, s, e));
    case _ => CallbackKeeps(env, s, e);
  }

  lemma {:induction false} RunKeeps(env: Env, s: System, es: seq<Event>)
    requires SystemInv(env, s)
    ensures SystemInv(env, Run(env, s, es))
    decreases |es|
  {
    if es != [] {
      StepKeeps(env, s, es[0]);
      RunKeeps(env, Exec(env, s, es[0]), es[1..]);
    }
  }
}
