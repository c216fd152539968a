/** The relay protocol as a transition system: any number of workers execute the pay and
    claim jobs, each split at its store and node calls, interleaved with quotes, replayed
    webhooks, lease expiry, calls that fail and crashes. */
module Relay {
  import opened Wrappers
  import opened DeadlinePolicy
  import opened RelayStore
  import opened Outbox

  type Height = n: int | 0 <= n < TWO_63

  /** What the pay gate saw when it opened. */
  datatype Gate = Gate(deadline: Uint32, height: Height, finalDelta: Uint64)

  datatype Payment = Payment(hash: string, gate: Gate)
  datatype Claim = Claim(hash: string, preimage: string)

  /** A worker's next action. */
  datatype Pc =
    | PayLoad(hash: string)
    | PayGate(hash: string, row: SendRow)
    | PayTake(hash: string, gate: Gate)
    | PayRecheck(hash: string)
    | PaySend(hash: string, gate: Gate)
    | PayRecord(hash: string)
    | UndoCancel(hash: string, to: SendState, reason: string)
    | UndoRecord(hash: string, to: SendState, reason: string)
    | ClaimLoad(hash: string)
    | ClaimCall(hash: string, preimage: string)
    | ClaimRecord(hash: string)
    | Report(hash: string, action: Action, ok: bool)
  {
    predicate Claims() { ClaimLoad? || ClaimCall? || ClaimRecord? }
  }

  /** The database, the workers, and what was done so far: every sendpayment call, the claims
      the node confirmed, the cancels that took effect, the hashes with a cancel that did not
      (its error is only logged), those with an undo the store did not take (likewise), and
      those whose worker died between taking the payment and sending it. */
  datatype System = System(db: Db, now: int, workers: map<nat, Pc>,
                           payments: seq<Payment>, claims: set<Claim>, cancels: multiset<string>,
                           uncancelled: set<string>, unrecorded: set<string>, lost: set<string>)

  datatype SendAnswer = Initiated | ReportedFailed | TransportError

  /** Which of a job's store calls succeed: its load, its compare-and-set, its second look and
      its closing write. */
  datatype StoreAnswer = StoreAnswer(load: bool, take: bool, reload: bool, record: bool)

  const STORED := StoreAnswer(true, true, true, true)

  /** What the node, the chain and the store answer during one step of a worker. */
  datatype Answer = Answer(decodes: bool, height: Option<Height>, send: SendAnswer, claimed: bool, cancelled: bool,
                           store: StoreAnswer)

  datatype Event =
    | Quote(hash: string, outboundInvoice: string)
    | HtlcHeld(hash: string, deadline: Uint32)
    | PaymentSent(hash: string, preimage: string)
    | Tick(seconds: nat)
    | TakeJob(worker: nat, key: JobKey)
    | Go(worker: nat, answer: Answer)
    | Crash(worker: nat)

  /** The hash function, the final delta an invoice asks for, and the configured margin. */
  datatype Env = Env(sha: string -> string, finalDelta: string -> Uint64, margin: Uint32)

  const UNDOABLE := {Quoted, Claimable, OutboundPending}

  function PayKey(hash: string): JobKey { JobKey(hash, RelayPayOutbound) }

  function ClaimKey(hash: string): JobKey { JobKey(hash, RelayClaimInbound) }

  // ---------------------------------------------------------------- webhooks

  /** The caller's HTLC is held: record the deadline and enqueue the pay job. */
  function MarkClaimable(db: Db, hash: string, deadline: Uint32, now: int): Db {
    if deadline == 0 || hash !in db.sends || db.sends[hash].status.AtOrBeyond(Claimable) then db
    else Advance(db, hash, {Quoted}, Claimable, Update(Some(deadline), None, None, Some(RelayPayOutbound)), now)
  }

  /** The third party released the preimage, which the handler has checked. */
  function MarkPreimage(env: Env, db: Db, hash: string, preimage: string, now: int): Db {
    if env.sha(preimage) != hash then db
    else Advance(db, hash, {OutboundPending, OutboundPaid}, OutboundClaimed,
                 Update(None, Some(preimage), None, Some(RelayClaimInbound)), now)
  }

  // ---------------------------------------------------------------- one worker step

  datatype Moved = Moved(db: Db, next: Pc, payments: seq<Payment>, claims: set<Claim>, cancels: multiset<string>,
                         uncancelled: set<string>, unrecorded: set<string>)

  function Just(db: Db, next: Pc): Moved { Moved(db, next, [], {}, multiset{}, {}, {}) }

  function PayDone(hash: string, ok: bool): Pc { Report(hash, RelayPayOutbound, ok) }

  function ClaimDone(hash: string, ok: bool): Pc { Report(hash, RelayClaimInbound, ok) }

  /** Blocks demanded before this delivery invoice is paid. */
  function Required(env: Env, invoice: string): Uint64 {
    RelayRequired(env.margin, env.finalDelta(invoice))
  }

  /** Whether the recorded deadline still leaves room for the delivery leg. Every failure to
      find out, a node outage included, is a refusal. */
  function CheckGate(env: Env, row: SendRow, a: Answer): Option<Gate> {
    if row.deadline == None || row.deadline == Some(0) || !a.decodes || a.height == None then None
    else if GateOpens(row.deadline.value, a.height.value, Required(env, row.outboundInvoice))
    then Some(Gate(row.deadline.value, a.height.value, env.finalDelta(row.outboundInvoice)))
    else None
  }

  function PayStep(env: Env, db: Db, now: int, pc: Pc, a: Answer): Moved
    requires !pc.Report? && !pc.Claims()
  {
    match pc
    case PayLoad(h) =>
      if !a.store.load || h !in db.sends then Just(db, PayDone(h, false))
      else if db.sends[h].status.AtOrBeyond(OutboundPaid) || db.sends[h].status.Terminal() then Just(db, PayDone(h, true))
      else Just(db, PayGate(h, db.sends[h]))
    case PayGate(h, row) =>
      (match CheckGate(env, row, a)
       case Some(gate) => Just(db, PayTake(h, gate))
       case None => Just(db, UndoCancel(h, Failed, "refused")))
    case PayTake(h, gate) =>
      if !a.store.take then Just(db, PayDone(h, false))
      else if CanAdvance(db, h, {Claimable})
      then Just(Advance(db, h, {Claimable}, OutboundPending, NO_UPDATE, now), PaySend(h, gate))
      else Just(db, PayRecheck(h))
    case PayRecheck(h) =>
      Just(db, PayDone(h, a.store.reload && h in db.sends && db.sends[h].status.AtOrBeyond(OutboundPending)))
    case PaySend(h, gate) =>
      var next := match a.send
        case Initiated => PayRecord(h)
        case ReportedFailed => UndoCancel(h, Cancelled, "failed")
        case TransportError => PayDone(h, false);
      Just(db, next).(payments := [Payment(h, gate)])
    case PayRecord(h) =>
      if !a.store.record then Just(db, PayDone(h, false))
      else Just(Advance(db, h, {OutboundPending}, OutboundPaid, NO_UPDATE, now), PayDone(h, true))
    case UndoCancel(h, to, reason) =>
      if a.cancelled then Just(db, UndoRecord(h, to, reason)).(cancels := multiset{h})
      else Just(db, UndoRecord(h, to, reason)).(uncancelled := {h})
    case UndoRecord(h, to, reason) =>
      if !a.store.record then Just(db, PayDone(h, true)).(unrecorded := {h})
      else Just(Advance(db, h, UNDOABLE, to, Update(None, None, Some(reason), None), now), PayDone(h, true))
  }

  function ClaimStep(db: Db, now: int, pc: Pc, a: Answer): Moved
    requires pc.Claims()
  {
    match pc
    case ClaimLoad(h) =>
      if !a.store.load || h !in db.sends then Just(db, ClaimDone(h, false))
      else if db.sends[h].status.AtOrBeyond(Settled) then Just(db, ClaimDone(h, true))
      else if db.sends[h].status != OutboundClaimed || db.sends[h].preimage == None then Just(db, ClaimDone(h, false))
      else Just(db, ClaimCall(h, db.sends[h].preimage.value))
    case ClaimCall(h, p) =>
      if a.claimed then Just(db, ClaimRecord(h)).(claims := {Claim(h, p)}) else Just(db, ClaimDone(h, false))
    case ClaimRecord(h) =>
      if !a.store.record then Just(db, ClaimDone(h, false))
      else Just(Advance(db, h, {OutboundClaimed}, Settled, NO_UPDATE, now), ClaimDone(h, true))
  }

  function WorkerStep(env: Env, db: Db, now: int, pc: Pc, a: Answer): Moved
    requires !pc.Report?
  {
    if pc.Claims() then ClaimStep(db, now, pc, a) else PayStep(env, db, now, pc, a)
  }

  function Moving(s: System, w: nat, m: Moved): System {
    s.(db := m.db, workers := s.workers[w := m.next], payments := s.payments + m.payments,
       claims := s.claims + m.claims, cancels := s.cancels + m.cancels,
       uncancelled := s.uncancelled + m.uncancelled, unrecorded := s.unrecorded + m.unrecorded)
  }

  /** Reports done or retry, and leaves. A report the store does not take is a crash. */
  function Reporting(s: System, w: nat): System
    requires w in s.workers && s.workers[w].Report?
  {
    var key := JobKey(s.workers[w].hash, s.workers[w].action);
    s.(db := s.db.(jobs := if s.workers[w].ok then MarkedDone(s.db.jobs, key) else MarkedRetry(s.db.jobs, key, s.now)),
       workers := s.workers - {w})
  }

  function Taking(s: System, w: nat, key: JobKey): System
    requires key in s.db.jobs
  {
    s.(db := s.db.(jobs := s.db.jobs[key := HandedOut(s.db.jobs[key], s.now)]),
       workers := s.workers[w := if key.action.RelayPayOutbound? then PayLoad(key.paymentHash) else ClaimLoad(key.paymentHash)])
  }

  function Crashing(s: System, w: nat): System {
    s.(workers := s.workers - {w},
       lost := if w in s.workers && s.workers[w].PaySend? then s.lost + {s.workers[w].hash} else s.lost)
  }

  function Exec(env: Env, s: System, e: Event): System {
    match e
    case Quote(h, invoice) => s.(db := Insert(s.db, h, invoice))
    case HtlcHeld(h, deadline) => s.(db := MarkClaimable(s.db, h, deadline, s.now))
    case PaymentSent(h, p) => s.(db := MarkPreimage(env, s.db, h, p, s.now))
    case Tick(seconds) => s.(now := s.now + seconds)
    case TakeJob(w, key) =>
      if w in s.workers || key !in s.db.jobs || !Eligible(s.db.jobs[key], s.now)
         || !(key.action.RelayPayOutbound? || key.action.RelayClaimInbound?) then s
      else Taking(s, w, key)
    case Go(w, a) =>
      if w !in s.workers then s
      else if s.workers[w].Report? then Reporting(s, w)
      else Moving(s, w, WorkerStep(env, s.db, s.now, s.workers[w], a))
    case Crash(w) => Crashing(s, w)
  }

  function Run(env: Env, s: System, es: seq<Event>): System
    decreases |es|
  {
    if es == [] then s else Run(env, Exec(env, s, es[0]), es[1..])
  }

  const IDLE := System(Db(map[], map[]), 0, map[], [], {}, multiset{}, {}, {}, {})
}
