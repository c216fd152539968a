/** The hosted-address flow as a transition system: workers execute the request, send and
    claim jobs, each split at its store and node calls, interleaved with the address
    callback, replayed webhooks, lease expiry, transport errors and crashes. Payment hashes
    are distinct across orders, so a row is found by its hash. */
module ApayJobs {
  import opened Wrappers
  import opened DeadlinePolicy
  import opened Outbox
  import Inv = ApayInvoice

  datatype Desk = Desk(rows: map<string, Inv.Invoice>, jobs: Jobs)

  datatype Sent = Sent(hash: string, invoice: string)
  datatype Claim = Claim(hash: string, preimage: string)

  datatype Pc =
    | ReqLoad(hash: string)
    | ReqGate(hash: string, row: Inv.Invoice)
    | ReqFail(hash: string)
    | ReqMark(hash: string, row: Inv.Invoice)
    | ReqReload(hash: string, row: Inv.Invoice)
    | ReqCall(hash: string, row: Inv.Invoice)
    | ReqPend(hash: string, invoice: string)
    | SendLoad(hash: string)
    | SendCall(hash: string, invoice: string)
    | SendMark(hash: string)
    | ClaimLoad(hash: string)
    | ClaimCall(hash: string, preimage: string)
    | ClaimMark(hash: string)
    | Recheck(hash: string, action: Action, floor: Inv.Status)
    | Report(hash: string, action: Action, ok: bool)
  {
    predicate Requests() { ReqLoad? || ReqGate? || ReqFail? || ReqMark? || ReqReload? || ReqCall? || ReqPend? }

    predicate Sends() { SendLoad? || SendCall? || SendMark? }
  }

  datatype System = System(desk: Desk, now: int, workers: map<nat, Pc>, sends: seq<Sent>, claims: set<Claim>)

  datatype SendAnswer = Initiated | ReportedFailed | TransportError

  /** Node, chain and directory answers during one step; an outbound invoice is one that
      passed every check against the row but the deadline. */
  datatype Answer = Answer(height: Option<Int64>, accountKnown: bool, outbound: Option<string>,
                           send: SendAnswer, claimed: bool)

  datatype Event =
    | Reserve(hash: string, hashIndex: int, amountMsat: nat)
    | Finalize(hash: string, inboundInvoice: string)
    | Release(hash: string)
    | HtlcHeld(hash: string, amountMsat: nat, deadline: Uint32, height: Option<Int64>)
    | PaymentSent(hash: string, preimage: string)
    | Tick(seconds: nat)
    | TakeJob(worker: nat, key: JobKey)
    | Go(worker: nat, answer: Answer)
    | Crash(worker: nat)

  datatype Env = Env(sha: Inv.ShaHex, cfg: Config)

  function ReqKey(hash: string): JobKey { JobKey(hash, RequestOutboundInvoice) }

  function SendKey(hash: string): JobKey { JobKey(hash, SendOutboundPayment) }

  function ClaimKey(hash: string): JobKey { JobKey(hash, ClaimInboundInvoice) }

  // ---------------------------------------------------------------- store transactions

  /** A conditional status update; the job is enqueued in the same transaction, and only
      when the status moved. */
  function MarkTx(env: Env, d: Desk, hash: string, m: Inv.Mark, job: Option<Action>, now: int): Desk {
    if hash !in d.rows || Inv.MarkOutcome(env.sha, d.rows[hash], m) != Inv.Transitioned then d
    else Desk(d.rows[hash := Inv.MarkRow(env.sha, d.rows[hash], m)],
              if job.Some? then Enqueued(d.jobs, JobKey(hash, job.value), now) else d.jobs)
  }

  function Outcome(env: Env, d: Desk, hash: string, m: Inv.Mark): Inv.MarkResult {
    if hash in d.rows then Inv.MarkOutcome(env.sha, d.rows[hash], m) else Inv.NotFound
  }

  predicate StatusAtOrBeyond(d: Desk, hash: string, floor: Inv.Status) {
    hash in d.rows && d.rows[hash].status.AtOrBeyond(floor)
  }

  // ---------------------------------------------------------------- one worker step

  datatype Moved = Moved(desk: Desk, next: Pc, sends: seq<Sent>, claims: set<Claim>)

  function Just(d: Desk, next: Pc): Moved { Moved(d, next, [], {}) }

  /** Where a job goes after its conditional update. */
  function AfterMark(hash: string, outcome: Inv.MarkResult, action: Action, floor: Inv.Status): Pc {
    match outcome
    case Transitioned => Report(hash, action, true)
    case AlreadyBeyond => Recheck(hash, action, floor)
    case _ => Report(hash, action, false)
  }

  /** Blocks demanded of the invoice the recipient returned: its own delta plus the margin. */
  function ResponseRequired(cfg: Config): Uint64 {
    WrapUint64(cfg.outboundDelta + MIN_FINAL_BUFFER + ClaimMargin(cfg))
  }

  function RequestStep(env: Env, d: Desk, now: int, pc: Pc, a: Answer): Moved
    requires pc.Requests()
  {
    match pc
    case ReqLoad(h) =>
      if h !in d.rows || d.rows[h].status.Reserved? || d.rows[h].status.Active? then Just(d, Report(h, RequestOutboundInvoice, false))
      else if d.rows[h].status.AtOrBeyond(Inv.OutboundPending) then Just(d, Report(h, RequestOutboundInvoice, true))
      else if d.rows[h].claimDeadline == None then Just(d, Report(h, RequestOutboundInvoice, false))
      else Just(d, ReqGate(h, d.rows[h]))
    case ReqGate(h, row) =>
      if a.height == None || row.claimDeadline == None then Just(d, Report(h, RequestOutboundInvoice, false))
      else if !GateOpens(row.claimDeadline.value, a.height.value, OutboundRequired(env.cfg)) then Just(d, ReqFail(h))
      else if !a.accountKnown then Just(d, Report(h, RequestOutboundInvoice, false))
      else Just(d, if row.status.Claimable? then ReqMark(h, row) else ReqReload(h, row))
    case ReqFail(h) =>
      Just(MarkTx(env, d, h, Inv.MarkFailed, None, now),
           AfterMark(h, Outcome(env, d, h, Inv.MarkFailed), RequestOutboundInvoice, Inv.OutboundPending))
    case ReqMark(h, row) =>
      Just(MarkTx(env, d, h, Inv.MarkOutboundRequested, None, now),
           if Outcome(env, d, h, Inv.MarkOutboundRequested).NotFound? then Report(h, RequestOutboundInvoice, false)
           else ReqReload(h, row))
    case ReqReload(h, row) =>
      if StatusAtOrBeyond(d, h, Inv.OutboundPending) then Just(d, Report(h, RequestOutboundInvoice, true))
      else if h in d.rows && d.rows[h].status.OutboundRequested? then Just(d, ReqCall(h, row))
      else Just(d, Report(h, RequestOutboundInvoice, false))
    case ReqCall(h, row) =>
      if a.outbound == None || a.height == None || row.claimDeadline == None
         || !GateOpens(row.claimDeadline.value, a.height.value, ResponseRequired(env.cfg))
      then Just(d, Report(h, RequestOutboundInvoice, false))
      else Just(d, ReqPend(h, a.outbound.value))
    case ReqPend(h, invoice) =>
      Just(MarkTx(env, d, h, Inv.MarkOutboundPending(invoice), Some(SendOutboundPayment), now),
           AfterMark(h, Outcome(env, d, h, Inv.MarkOutboundPending(invoice)), RequestOutboundInvoice, Inv.OutboundPending))
  }

  function SendStep(env: Env, d: Desk, now: int, pc: Pc, a: Answer): Moved
    requires pc.Sends()
  {
    match pc
    case SendLoad(h) =>
      if StatusAtOrBeyond(d, h, Inv.OutboundPaid) then Just(d, Report(h, SendOutboundPayment, true))
      else if h !in d.rows || !d.rows[h].status.OutboundPending?
              || d.rows[h].outboundInvoice == None || d.rows[h].outboundInvoice == Some("")
      then Just(d, Report(h, SendOutboundPayment, false))
      else Just(d, SendCall(h, d.rows[h].outboundInvoice.value))
    case SendCall(h, invoice) =>
      // a payment the node reports failed is carried on with, as if it had been sent
      Moved(d, if a.send.TransportError? then Report(h, SendOutboundPayment, false) else SendMark(h), [Sent(h, invoice)], {})
    case SendMark(h) =>
      Just(MarkTx(env, d, h, Inv.MarkOutboundPaid, None, now),
           AfterMark(h, Outcome(env, d, h, Inv.MarkOutboundPaid), SendOutboundPayment, Inv.OutboundPaid))
  }

  function ClaimStep(env: Env, d: Desk, now: int, pc: Pc, a: Answer): Moved
    requires !pc.Requests() && !pc.Sends() && !pc.Report?
  {
    match pc
    case ClaimLoad(h) =>
      if StatusAtOrBeyond(d, h, Inv.InboundClaimed) then Just(d, Report(h, ClaimInboundInvoice, true))
      else if h !in d.rows || !d.rows[h].status.OutboundClaimed? || d.rows[h].preimage == None
      then Just(d, Report(h, ClaimInboundInvoice, false))
      else Just(d, ClaimCall(h, d.rows[h].preimage.value))
    case ClaimCall(h, p) =>
      if a.claimed then Moved(d, ClaimMark(h), [], {Claim(h, p)}) else Just(d, Report(h, ClaimInboundInvoice, false))
    case ClaimMark(h) =>
      Just(MarkTx(env, d, h, Inv.MarkInboundClaimed, None, now),
           AfterMark(h, Outcome(env, d, h, Inv.MarkInboundClaimed), ClaimInboundInvoice, Inv.InboundClaimed))
    case Recheck(h, action, floor) =>
      Just(d, Report(h, action, StatusAtOrBeyond(d, h, floor)))
  }

  function WorkerStep(env: Env, d: Desk, now: int, pc: Pc, a: Answer): Moved
    requires !pc.Report?
  {
    if pc.Requests() then RequestStep(env, d, now, pc, a)
    else if pc.Sends() then SendStep(env, d, now, pc, a)
    else ClaimStep(env, d, now, pc, a)
  }

  // ---------------------------------------------------------------- events

  function Moving(s: System, w: nat, m: Moved): System {
    s.(desk := m.desk, workers := s.workers[w := m.next], sends := s.sends + m.sends, claims := s.claims + m.claims)
  }

  function Reporting(s: System, w: nat): System
    requires w in s.workers && s.workers[w].Report?
  {
    var key := JobKey(s.workers[w].hash, s.workers[w].action);
    s.(desk := s.desk.(jobs := if s.workers[w].ok then MarkedDone(s.desk.jobs, key) else MarkedRetry(s.desk.jobs, key, s.now)),
       workers := s.workers - {w})
  }

  predicate IsApay(action: Action) {
    action.RequestOutboundInvoice? || action.SendOutboundPayment? || action.ClaimInboundInvoice?
  }

  function FirstStep(key: JobKey): Pc
    requires IsApay(key.action)
  {
    match key.action
    case RequestOutboundInvoice => ReqLoad(key.paymentHash)
    case SendOutboundPayment => SendLoad(key.paymentHash)
    case ClaimInboundInvoice => ClaimLoad(key.paymentHash)
  }

  function Taking(s: System, w: nat, key: JobKey): System
    requires key in s.desk.jobs && IsApay(key.action)
  {
    s.(desk := s.desk.(jobs := s.desk.jobs[key := HandedOut(s.desk.jobs[key], s.now)]),
       workers := s.workers[w := FirstStep(key)])
  }

  /** The callback's own reserved row becomes active with an invoice, or failed without. */
  function Settling(d: Desk, hash: string, to: Inv.Status, inbound: Option<string>): Desk {
    if hash !in d.rows || !d.rows[hash].status.Reserved? then d
    else d.(rows := d.rows[hash := d.rows[hash].(status := to, inboundInvoice := inbound)])
  }

  function Held(env: Env, s: System, hash: string, amountMsat: nat, deadline: Uint32, height: Option<Int64>): Desk {
    if deadline == 0 || height == None || !GateOpens(deadline, height.value, InboundRequired(env.cfg)) then s.desk
    else MarkTx(env, s.desk, hash, Inv.MarkClaimable(amountMsat, Some(deadline)), Some(RequestOutboundInvoice), s.now)
  }

  function Exec(env: Env, s: System, e: Event): System {
    match e
    case Reserve(h, index, amount) =>
      if h in s.desk.rows then s
      else s.(desk := s.desk.(rows := s.desk.rows[h := Inv.Invoice(index, h, amount, Inv.Reserved, None, None, None, None)]))
    case Finalize(h, invoice) => if invoice == "" then s else s.(desk := Settling(s.desk, h, Inv.Active, Some(invoice)))
    case Release(h) => s.(desk := Settling(s.desk, h, Inv.Failed, None))
    case HtlcHeld(h, amount, deadline, height) => s.(desk := Held(env, s, h, amount, deadline, height))
    case PaymentSent(h, p) =>
      s.(desk := MarkTx(env, s.desk, h, Inv.MarkOutboundClaimed(p), Some(ClaimInboundInvoice), s.now))
    case Tick(seconds) => s.(now := s.now + seconds)
    case TakeJob(w, key) =>
      if w in s.workers || key !in s.desk.jobs || !Eligible(s.desk.jobs[key], s.now) || !IsApay(key.action) then s
      else Taking(s, w, key)
    case Go(w, a) =>
      if w !in s.workers then s
      else if s.workers[w].Report? then Reporting(s, w)
      else Moving(s, w, WorkerStep(env, s.desk, s.now, s.workers[w], a))
    case Crash(w) => s.(workers := s.workers - {w})
  }

  function Run(env: Env, s: System, es: seq<Event>): System
    decreases |es|
  {
    if es == [] then s else Run(env, Exec(env, s, es[0]), es[1..])
  }

  const IDLE := System(Desk(map[], map[]), 0, map[], [], {})
}
