/** What a hosted payment has behind it: the HTLC that was reported held, the blocks that were
    left when the recipient was asked, and those left when its invoice was accepted. */
module ApayHeld {
  import opened Wrappers
  import opened DeadlinePolicy
  import opened Outbox
  import opened ApayJobs
  import opened ApayJobRuns
  import Inv = ApayInvoice

  /** Blocks the node keeps for itself below the inbound delta, subtracted in 64 bits. */
  function InboundBlocks(cfg: Config): int { (cfg.inboundDelta - 42) % TWO_64 }

  function MarginBlocks(cfg: Config): int { if cfg.claimMargin == 0 then 12 else cfg.claimMargin }

  lemma InboundIs(cfg: Config)
    ensures InboundRequired(cfg) == InboundBlocks(cfg)
  {}

  lemma OutboundIs(cfg: Config)
    ensures OutboundRequired(cfg) == cfg.outboundDelta + MarginBlocks(cfg)
  {}

  lemma ResponseIs(cfg: Config)
    ensures ResponseRequired(cfg) == cfg.outboundDelta + 3 + MarginBlocks(cfg)
  {}

  /** The three gates of the hosted flow, in blocks left. */
  lemma GatesMean(cfg: Config, deadline: Uint32, height: Int64)
    ensures GateOpens(deadline, height, InboundRequired(cfg)) <==> deadline - height > InboundBlocks(cfg)
    ensures GateOpens(deadline, height, OutboundRequired(cfg)) <==> deadline - height > cfg.outboundDelta + MarginBlocks(cfg)
    ensures GateOpens(deadline, height, ResponseRequired(cfg)) <==> deadline - height > cfg.outboundDelta + 3 + MarginBlocks(cfg)
  {
    InboundIs(cfg);
    OutboundIs(cfg);
    ResponseIs(cfg);
    GateMeans(deadline, height, InboundRequired(cfg));
    GateMeans(deadline, height, OutboundRequired(cfg));
    GateMeans(deadline, height, ResponseRequired(cfg));
  }

  /** A reported HTLC moves a row exactly when the row is active, the amount is the row's own
      and not zero, and enough blocks are left; then the row is claimable with that deadline
      and its request job is queued, and nothing else changes. */
  lemma HtlcHeldIff(env: Env, s: System, h: string, amount: nat, deadline: Uint32, height: Option<Int64>)
    requires SystemInv(env, s)
    ensures var d' := Exec(env, s, HtlcHeld(h, amount, deadline, height)).desk;
            if && h in s.desk.rows && s.desk.rows[h].status == Inv.Active && amount > 0 && amount == s.desk.rows[h].amountMsat
               && deadline > 0 && height.Some? && deadline - height.value > InboundBlocks(env.cfg)
            then && h in d'.rows && d'.rows[h].status == Inv.Claimable && d'.rows[h].amountMsat == amount
                 && d'.rows[h].claimDeadline == (if s.desk.rows[h].claimDeadline.Some? then s.desk.rows[h].claimDeadline else Some(deadline))
                 && d'.rows == s.desk.rows[h := d'.rows[h]]
                 && ReqKey(h) in d'.jobs && Eligible(d'.jobs[ReqKey(h)], s.now) && d'.jobs == s.desk.jobs[ReqKey(h) := d'.jobs[ReqKey(h)]]
            else d' == s.desk
  {
    assert RowInv(env, s.desk, s.claims, h);
    if height.Some? {
      GatesMean(env.cfg, deadline, height.value);
    }
    if h in s.desk.rows {
      Inv.MarkTransitionsIff(env.sha, s.desk.rows[h], Inv.MarkClaimable(amount, Some(deadline)));
    }
  }

  // ---------------------------------------------------------------- what happened

  predicate HeldAt(env: Env, e: Event, h: string, amount: nat, deadline: Uint32) {
    && e.HtlcHeld? && e.hash == h && e.amountMsat == amount && amount > 0 && e.deadline == deadline && deadline > 0
    && e.height.Some? && deadline - e.height.value > InboundBlocks(env.cfg)
  }

  /** A worker found room enough to ask the recipient, and its account. */
  predicate AskedAt(env: Env, s: System, e: Event, h: string, deadline: Uint32) {
    && e.Go? && e.worker in s.workers && s.workers[e.worker].ReqGate? && s.workers[e.worker].hash == h
    && s.workers[e.worker].row.claimDeadline == Some(deadline) && e.answer.accountKnown
    && e.answer.height.Some? && deadline - e.answer.height.value > env.cfg.outboundDelta + MarginBlocks(env.cfg)
  }

  /** The recipient's invoice came, with room enough left for it. */
  predicate AnsweredAt(env: Env, s: System, e: Event, h: string, deadline: Uint32, invoice: string) {
    && e.Go? && e.worker in s.workers && s.workers[e.worker].ReqCall? && s.workers[e.worker].hash == h
    && s.workers[e.worker].row.claimDeadline == Some(deadline) && e.answer.outbound == Some(invoice)
    && e.answer.height.Some? && deadline - e.answer.height.value > env.cfg.outboundDelta + 3 + MarginBlocks(env.cfg)
  }

  ghost predicate WasHeld(env: Env, es: seq<Event>, h: string, amount: nat, deadline: Uint32) {
    exists k :: 0 <= k < |es| && HeldAt(env, es[k], h, amount, deadline)
  }

  ghost predicate WasAsked(env: Env, es: seq<Event>, h: string, deadline: Uint32) {
    exists k :: 0 <= k < |es| && AskedAt(env, Run(env, IDLE, es[..k]), es[k], h, deadline)
  }

  ghost predicate WasAnswered(env: Env, es: seq<Event>, h: string, deadline: Uint32, invoice: string) {
    exists k :: 0 <= k < |es| && AnsweredAt(env, Run(env, IDLE, es[..k]), es[k], h, deadline, invoice)
  }

  lemma HeldMore(env: Env, es: seq<Event>, e: Event, h: string, amount: nat, deadline: Uint32)
    requires WasHeld(env, es, h, amount, deadline) || HeldAt(env, e, h, amount, deadline)
    ensures WasHeld(env, es + [e], h, amount, deadline)
  {
    if WasHeld(env, es, h, amount, deadline) {
      var k :| 0 <= k < |es| && HeldAt(env, es[k], h, amount, deadline);
      assert (es + [e])[k] == es[k];
    } else {
      assert (es + [e])[|es|] == e;
    }
  }

  lemma AskedMore(env: Env, es: seq<Event>, e: Event, h: string, deadline: Uint32)
    requires WasAsked(env, es, h, deadline) || AskedAt(env, Run(env, IDLE, es), e, h, deadline)
    ensures WasAsked(env, es + [e], h, deadline)
  {
    if WasAsked(env, es, h, deadline) {
      var k :| 0 <= k < |es| && AskedAt(env, Run(env, IDLE, es[..k]), es[k], h, deadline);
      assert (es + [e])[..k] == es[..k] && (es + [e])[k] == es[k];
    } else {
      assert (es + [e])[..|es|] == es && (es + [e])[|es|] == e;
    }
  }

  lemma AnsweredMore(env: Env, es: seq<Event>, e: Event, h: string, deadline: Uint32, invoice: string)
    requires WasAnswered(env, es, h, deadline, invoice) || AnsweredAt(env, Run(env, IDLE, es), e, h, deadline, invoice)
    ensures WasAnswered(env, es + [e], h, deadline, invoice)
  {
    if WasAnswered(env, es, h, deadline, invoice) {
      var k :| 0 <= k < |es| && AnsweredAt(env, Run(env, IDLE, es[..k]), es[k], h, deadline, invoice);
      assert (es + [e])[..k] == es[..k] && (es + [e])[k] == es[k];
    } else {
      assert (es + [e])[..|es|] == es && (es + [e])[|es|] == e;
    }
  }

  // ---------------------------------------------------------------- what rows and workers recall

  ghost predicate RowRecalls(env: Env, es: seq<Event>, h: string, row: Inv.Invoice) {
    && (row.claimDeadline.Some? ==> WasHeld(env, es, h, row.amountMsat, row.claimDeadline.value))
    && (row.outboundInvoice.Some? ==>
          && row.claimDeadline.Some? && WasAsked(env, es, h, row.claimDeadline.value)
          && WasAnswered(env, es, h, row.claimDeadline.value, row.outboundInvoice.value))
    && (row.status.Reserved? || row.status.Active? ==> row.claimDeadline == None)
    && (row.status.Claimable? || row.status.OutboundRequested? ==> row.claimDeadline.Some?)
    && (row.status.Rank() < Inv.Status.OutboundPending.Rank() ==> row.outboundInvoice == None)
  }

  ghost predicate SameDeadline(d: Desk, h: string, row: Inv.Invoice) {
    h in d.rows && row.claimDeadline.Some? && d.rows[h].claimDeadline == row.claimDeadline
  }

  ghost predicate PcRecalls(env: Env, es: seq<Event>, d: Desk, pc: Pc) {
    match pc
    case ReqGate(h, row) => SameDeadline(d, h, row)
    case ReqMark(h, row) => SameDeadline(d, h, row) && WasAsked(env, es, h, row.claimDeadline.value)
    case ReqReload(h, row) => SameDeadline(d, h, row) && WasAsked(env, es, h, row.claimDeadline.value)
    case ReqCall(h, row) => SameDeadline(d, h, row) && WasAsked(env, es, h, row.claimDeadline.value)
    case ReqPend(h, invoice) =>
      && h in d.rows && d.rows[h].claimDeadline.Some? && WasAsked(env, es, h, d.rows[h].claimDeadline.value)
      && WasAnswered(env, es, h, d.rows[h].claimDeadline.value, invoice)
    case _ => true
  }

  ghost predicate AllRecall(env: Env, es: seq<Event>, s: System) {
    && (forall h :: h in s.desk.rows ==> RowRecalls(env, es, h, s.desk.rows[h]))
    && (forall w :: w in s.workers ==> PcRecalls(env, es, s.desk, s.workers[w]))
  }

  lemma RowRecallsMore(env: Env, es: seq<Event>, e: Event, h: string, row: Inv.Invoice)
    requires RowRecalls(env, es, h, row)
    ensures RowRecalls(env, es + [e], h, row)
  {
    if row.claimDeadline.Some? {
      HeldMore(env, es, e, h, row.amountMsat, row.claimDeadline.value);
    }
    if row.outboundInvoice.Some? {
      AskedMore(env, es, e, h, row.claimDeadline.value);
      AnsweredMore(env, es, e, h, row.claimDeadline.value, row.outboundInvoice.value);
    }
  }

  /** Deadlines on record stay. */
  ghost predicate DeadlinesStay(d: Desk, d': Desk) {
    forall h :: h in d.rows && d.rows[h].claimDeadline.Some? ==> h in d'.rows && d'.rows[h].claimDeadline == d.rows[h].claimDeadline
  }

  lemma PcRecallsMore(env: Env, es: seq<Event>, e: Event, d: Desk, d': Desk, pc: Pc)
    requires PcRecalls(env, es, d, pc) && DeadlinesStay(d, d')
    ensures PcRecalls(env, es + [e], d', pc)
  {
    if pc.ReqMark? || pc.ReqReload? || pc.ReqCall? {
      AskedMore(env, es, e, pc.hash, pc.row.claimDeadline.value);
    } else if pc.ReqPend? {
      AskedMore(env, es, e, pc.hash, d.rows[pc.hash].claimDeadline.value);
      AnsweredMore(env, es, e, pc.hash, d.rows[pc.hash].claimDeadline.value, pc.invoice);
    }
  }

  // ---------------------------------------------------------------- each step

  /** An update that is neither the held HTLC nor the invoice's arrival brings nothing new. */
  lemma PlainMarkRecalls(env: Env, es: seq<Event>, h: string, row: Inv.Invoice, m: Inv.Mark)
    requires RowRecalls(env, es, h, row) && !m.MarkClaimable? && !m.MarkOutboundPending?
    ensures RowRecalls(env, es, h, Inv.MarkRow(env.sha, row, m))
  {
    Inv.MarkTransitionsIff(env.sha, row, m);
  }

  lemma MarkTxStays(env: Env, d: Desk, h: string, m: Inv.Mark, job: Option<Action>, now: int)
    ensures var d' := MarkTx(env, d, h, m, job, now);
            && DeadlinesStay(d, d') && d'.rows.Keys == d.rows.Keys
            && (forall g :: g in d.rows && g != h ==> d'.rows[g] == d.rows[g])
            && (h in d.rows ==> d'.rows[h] == Inv.MarkRow(env.sha, d.rows[h], m))
  {
    if h in d.rows {
      Inv.MarkTransitionsIff(env.sha, d.rows[h], m);
    }
  }

  lemma HeldRecalls(env: Env, es: seq<Event>, s: System, e: Event)
    requires e.HtlcHeld? && AllRecall(env, es, s)
    ensures AllRecall(env, es + [e], Exec(env, s, e))
  {
    var (h, m, s') := (e.hash, Inv.MarkClaimable(e.amountMsat, Some(e.deadline)), Exec(env, s, e));
    MarkTxStays(env, s.desk, h, m, Some(RequestOutboundInvoice), s.now);
    forall g | g in s'.desk.rows ensures RowRecalls(env, es + [e], g, s'.desk.rows[g]) {
      RowRecallsMore(env, es, e, g, s.desk.rows[g]);
      if g == h && s'.desk != s.desk {
        Inv.MarkTransitionsIff(env.sha, s.desk.rows[h], m);
        GatesMean(env.cfg, e.deadline, e.height.value);
        if Inv.Applies(env.sha, s.desk.rows[h], m) {
          HeldMore(env, es, e, h, e.amountMsat, e.deadline);
        }
      }
    }
    forall w | w in s.workers ensures PcRecalls(env, es + [e], s'.desk, s.workers[w]) {
      PcRecallsMore(env, es, e, s.desk, s'.desk, s.workers[w]);
    }
  }

  /** The mark a worker is about to make, if any. */
  function MarkOf(pc: Pc): Option<Inv.Mark> {
    match pc
    case ReqFail(_) => Some(Inv.MarkFailed)
    case ReqMark(_, _) => Some(Inv.MarkOutboundRequested)
    case ReqPend(_, invoice) => Some(Inv.MarkOutboundPending(invoice))
    case SendMark(_) => Some(Inv.MarkOutboundPaid)
    case ClaimMark(_) => Some(Inv.MarkInboundClaimed)
    case _ => None
  }

  /** The desk after a worker's mark, if it makes one. */
  ghost predicate DeskAfter(env: Env, d: Desk, pc: Pc, d': Desk) {
    && DeadlinesStay(d, d') && d'.rows.Keys == d.rows.Keys
    && (forall g :: g in d.rows && g != pc.hash ==> d'.rows[g] == d.rows[g])
    && (pc.hash in d.rows ==>
          d'.rows[pc.hash] == if MarkOf(pc).Some? then Inv.MarkRow(env.sha, d.rows[pc.hash], MarkOf(pc).value) else d.rows[pc.hash])
  }

  lemma RequestDeskAfter(env: Env, s: System, pc: Pc, a: Answer)
    requires pc.Requests()
    ensures DeskAfter(env, s.desk, pc, RequestStep(env, s.desk, s.now, pc, a).desk)
  {
    if pc.ReqFail? {
      MarkTxStays(env, s.desk, pc.hash, Inv.MarkFailed, None, s.now);
    } else if pc.ReqMark? {
      MarkTxStays(env, s.desk, pc.hash, Inv.MarkOutboundRequested, None, s.now);
    } else if pc.ReqPend? {
      MarkTxStays(env, s.desk, pc.hash, Inv.MarkOutboundPending(pc.invoice), Some(SendOutboundPayment), s.now);
    }
  }

  lemma WorkerDesk(env: Env, s: System, pc: Pc, a: Answer)
    requires !pc.Report?
    ensures DeskAfter(env, s.desk, pc, WorkerStep(env, s.desk, s.now, pc, a).desk)
  {
    if pc.Requests() {
      RequestDeskAfter(env, s, pc, a);
    } else if pc.SendMark? {
      MarkTxStays(env, s.desk, pc.hash, Inv.MarkOutboundPaid, None, s.now);
    } else if pc.ClaimMark? {
      MarkTxStays(env, s.desk, pc.hash, Inv.MarkInboundClaimed, None, s.now);
    } else {
      assert WorkerStep(env, s.desk, s.now, pc, a).desk == s.desk;
    }
  }

  lemma WorkerRow(env: Env, es: seq<Event>, s: System, w: nat, a: Answer)
    requires AllRecall(env, es, s) && w in s.workers && !s.workers[w].Report? && s.workers[w].hash in s.desk.rows
    ensures var h := s.workers[w].hash; var d' := WorkerStep(env, s.desk, s.now, s.workers[w], a).desk;
            h in d'.rows && RowRecalls(env, es, h, d'.rows[h])
  {
    var pc := s.workers[w];
    WorkerDesk(env, s, pc, a);
    assert PcRecalls(env, es, s.desk, pc);
    if MarkOf(pc).Some? {
      if pc.ReqPend? {
        Inv.MarkTransitionsIff(env.sha, s.desk.rows[pc.hash], MarkOf(pc).value);
      } else {
        PlainMarkRecalls(env, es, pc.hash, s.desk.rows[pc.hash], MarkOf(pc).value);
      }
    }
  }

  /** A worker that loads a row past Active remembers its deadline. */
  lemma LoadKnows(env: Env, es: seq<Event>, s: System, h: string, a: Answer)
    ensures PcRecalls(env, es, s.desk, RequestStep(env, s.desk, s.now, ReqLoad(h), a).next)
  {}

  /** Marking the request and reloading carry on what the gate found. */
  lemma MarkedKnows(env: Env, es: seq<Event>, s: System, pc: Pc, a: Answer, d': Desk)
    requires (pc.ReqMark? || pc.ReqReload?) && PcRecalls(env, es, d', pc)
    ensures PcRecalls(env, es, d', RequestStep(env, s.desk, s.now, pc, a).next)
  {}

  lemma OthersKnowNothing(env: Env, es: seq<Event>, s: System, pc: Pc, a: Answer, d': Desk)
    requires !pc.Report? && (!pc.Requests() || pc.ReqFail? || pc.ReqPend?)
    ensures PcRecalls(env, es, d', WorkerStep(env, s.desk, s.now, pc, a).next)
  {}

  lemma GateKnows(env: Env, es: seq<Event>, s: System, w: nat, a: Answer)
    requires s == Run(env, IDLE, es) && w in s.workers && s.workers[w].ReqGate? && PcRecalls(env, es, s.desk, s.workers[w])
    ensures PcRecalls(env, es + [Go(w, a)], s.desk, RequestStep(env, s.desk, s.now, s.workers[w], a).next)
  {
    var (h, deadline) := (s.workers[w].hash, s.workers[w].row.claimDeadline.value);
    if a.height.Some? {
      GatesMean(env.cfg, deadline, a.height.value);
      if a.accountKnown && GateOpens(deadline, a.height.value, OutboundRequired(env.cfg)) {
        AskedMore(env, es, Go(w, a), h, deadline);
      }
    }
  }

  lemma CallKnows(env: Env, es: seq<Event>, s: System, w: nat, a: Answer)
    requires s == Run(env, IDLE, es) && w in s.workers && s.workers[w].ReqCall? && PcRecalls(env, es, s.desk, s.workers[w])
    ensures PcRecalls(env, es + [Go(w, a)], s.desk, RequestStep(env, s.desk, s.now, s.workers[w], a).next)
  {
    var (h, deadline) := (s.workers[w].hash, s.workers[w].row.claimDeadline.value);
    AskedMore(env, es, Go(w, a), h, deadline);
    if a.height.Some? && a.outbound.Some? {
      GatesMean(env.cfg, deadline, a.height.value);
      if GateOpens(deadline, a.height.value, ResponseRequired(env.cfg)) {
        AnsweredMore(env, es, Go(w, a), h, deadline, a.outbound.value);
      }
    }
  }

  /** What the worker knows next. */
  lemma WorkerKnows(env: Env, es: seq<Event>, s: System, w: nat, a: Answer)
    requires s == Run(env, IDLE, es) && AllRecall(env, es, s) && w in s.workers && !s.workers[w].Report?
    ensures var m := WorkerStep(env, s.desk, s.now, s.workers[w], a); PcRecalls(env, es + [Go(w, a)], m.desk, m.next)
  {
    var pc := s.workers[w];
    if pc.ReqGate? {
      GateKnows(env, es, s, w, a);
    } else if pc.ReqCall? {
      CallKnows(env, es, s, w, a);
    } else {
      var d' := WorkerStep(env, s.desk, s.now, pc, a).desk;
      WorkerDesk(env, s, pc, a);
      if pc.ReqLoad? {
        LoadKnows(env, es + [Go(w, a)], s, pc.hash, a);
      } else if pc.ReqMark? || pc.ReqReload? {
        PcRecallsMore(env, es, Go(w, a), s.desk, d', pc);
        MarkedKnows(env, es + [Go(w, a)], s, pc, a, d');
      } else {
        OthersKnowNothing(env, es + [Go(w, a)], s, pc, a, d');
      }
    }
  }

  lemma WorkerRecalls(env: Env, es: seq<Event>, s: System, w: nat, a: Answer)
    requires s == Run(env, IDLE, es) && AllRecall(env, es, s) && w in s.workers && !s.workers[w].Report?
    ensures AllRecall(env, es + [Go(w, a)], Moving(s, w, WorkerStep(env, s.desk, s.now, s.workers[w], a)))
  {
    var e := Go(w, a);
    var m := WorkerStep(env, s.desk, s.now, s.workers[w], a);
    WorkerDesk(env, s, s.workers[w], a);
    WorkerKnows(env, es, s, w, a);
    forall g | g in m.desk.rows ensures RowRecalls(env, es + [e], g, m.desk.rows[g]) {
      if g == s.workers[w].hash {
        WorkerRow(env, es, s, w, a);
      }
      RowRecallsMore(env, es, e, g, m.desk.rows[g]);
    }
    forall v | v in s.workers && v != w ensures PcRecalls(env, es + [e], m.desk, s.workers[v]) {
      PcRecallsMore(env, es, e, s.desk, m.desk, s.workers[v]);
    }
  }

  /** Events of the callback bring at most a new row, or settle a reserved one. */
  lemma CallbackRecalls(env: Env, es: seq<Event>, s: System, e: Event)
    requires AllRecall(env, es, s) && (e.Reserve? || e.Finalize? || e.Release?)
    ensures AllRecall(env, es + [e], Exec(env, s, e))
  {
    var s' := Exec(env, s, e);
    forall g | g in s'.desk.rows ensures RowRecalls(env, es + [e], g, s'.desk.rows[g]) {
      if g in s.desk.rows {
        RowRecallsMore(env, es, e, g, s.desk.rows[g]);
      }
    }
    assert DeadlinesStay(s.desk, s'.desk) by {
      assert forall g :: g in s.desk.rows ==> RowRecalls(env, es, g, s.desk.rows[g]);
    }
    forall w | w in s.workers ensures PcRecalls(env, es + [e], s'.desk, s.workers[w]) {
      PcRecallsMore(env, es, e, s.desk, s'.desk, s.workers[w]);
    }
  }

  /** The clock and the outbox leave every row alone. */
  lemma QuietRecalls(env: Env, es: seq<Event>, s: System, e: Event)
    requires AllRecall(env, es, s) && (e.Tick? || e.TakeJob? || e.Crash?)
    ensures AllRecall(env, es + [e], Exec(env, s, e))
  {
    var s' := Exec(env, s, e);
    forall g | g in s.desk.rows ensures RowRecalls(env, es + [e], g, s.desk.rows[g]) {
      RowRecallsMore(env, es, e, g, s.desk.rows[g]);
    }
    forall w | w in s'.workers && w in s.workers && s'.workers[w] == s.workers[w]
      ensures PcRecalls(env, es + [e], s'.desk, s.workers[w])
    {
      PcRecallsMore(env, es, e, s.desk, s'.desk, s.workers[w]);
    }
  }

  lemma SentRecalls(env: Env, es: seq<Event>, s: System, e: Event)
    requires AllRecall(env, es, s) && e.PaymentSent?
    ensures AllRecall(env, es + [e], Exec(env, s, e))
  {
    var (h, m, s') := (e.hash, Inv.MarkOutboundClaimed(e.preimage), Exec(env, s, e));
    MarkTxStays(env, s.desk, h, m, Some(ClaimInboundInvoice), s.now);
    forall g | g in s'.desk.rows ensures RowRecalls(env, es + [e], g, s'.desk.rows[g]) {
      if g == h {
        PlainMarkRecalls(env, es, h, s.desk.rows[h], m);
      }
      RowRecallsMore(env, es, e, g, s'.desk.rows[g]);
    }
    forall w | w in s.workers ensures PcRecalls(env, es + [e], s'.desk, s.workers[w]) {
      PcRecallsMore(env, es, e, s.desk, s'.desk, s.workers[w]);
    }
  }

  lemma ReportRecalls(env: Env, es: seq<Event>, s: System, e: Event)
    requires AllRecall(env, es, s) && e.Go? && (e.worker in s.workers ==> s.workers[e.worker].Report?)
    ensures AllRecall(env, es + [e], Exec(env, s, e))
  {
    forall g | g in s.desk.rows ensures RowRecalls(env, es + [e], g, s.desk.rows[g]) {
      RowRecallsMore(env, es, e, g, s.desk.rows[g]);
    }
    forall w | w in s.workers ensures PcRecalls(env, es + [e], s.desk, s.workers[w]) {
      PcRecallsMore(env, es, e, s.desk, s.desk, s.workers[w]);
    }
  }

  lemma StepRecalls(env: Env, es: seq<Event>, s: System, e: Event)
    requires s == Run(env, IDLE, es) && AllRecall(env, es, s)
    ensures AllRecall(env, es + [e], Exec(env, s, e))
  {
    match e
    case HtlcHeld(_, _, _, _) => HeldRecalls(env, es, s, e);
    case PaymentSent(_, _) => SentRecalls(env, es, s, e);
    case Go(w, a) =>
      if w in s.workers && !s.workers[w].Report? {
        WorkerRecalls(env, es, s, w, a);
      } else {
        ReportRecalls(env, es, s, e);
      }
    case Tick(_) => QuietRecalls(env, es, s, e);
    case TakeJob(_, _) => QuietRecalls(env, es, s, e);
    case Crash(_) => QuietRecalls(env, es, s, e);
    case _ => CallbackRecalls(env, es, s, e);
  }

  lemma {:induction false} RunLast(env: Env, s: System, es: seq<Event>, e: Event)
    ensures Run(env, s, es + [e]) == Exec(env, Run(env, s, es), e)
    decreases |es|
  {
    if es == [] {
      assert [] + [e] == [e] && [e][1..] == [];
      assert Run(env, Exec(env, s, e), []) == Exec(env, s, e);
    } else {
      assert (es + [e])[0] == es[0] && (es + [e])[1..] == es[1..] + [e];
      RunLast(env, Exec(env, s, es[0]), es[1..], e);
    }
  }

  lemma {:induction false} RunRecalls(env: Env, es: seq<Event>)
    ensures AllRecall(env, es, Run(env, IDLE, es))
    decreases |es|
  {
    if es != [] {
      var front, e := es[..|es| - 1], es[|es| - 1];
      assert es == front + [e];
      RunRecalls(env, front);
      StepRecalls(env, front, Run(env, IDLE, front), e);
      RunLast(env, IDLE, front, e);
    }
  }

  /** In every run each payment that was started has a row whose HTLC had been reported held
      with exactly the row's amount, whose recipient was asked with room enough for its
      answer, and whose very invoice was accepted with room enough to pay it, all against the
      deadline on record. */
  lemma SendsAreCovered(env: Env, es: seq<Event>, i: nat)
    requires i < |Run(env, IDLE, es).sends|
    ensures var s := Run(env, IDLE, es); var (h, invoice) := (s.sends[i].hash, s.sends[i].invoice);
            && h in s.desk.rows && s.desk.rows[h].claimDeadline.Some?
            && var (amount, deadline) := (s.desk.rows[h].amountMsat, s.desk.rows[h].claimDeadline.value);
               WasHeld(env, es, h, amount, deadline) && WasAsked(env, es, h, deadline) && WasAnswered(env, es, h, deadline, invoice)
  {
    IdleInv(env);
    RunKeeps(env, IDLE, es);
    RunRecalls(env, es);
    var s := Run(env, IDLE, es);
    assert RowRecalls(env, es, s.sends[i].hash, s.desk.rows[s.sends[i].hash]);
  }

  /** And a row that is claimable, or further, was reported held with exactly its amount. */
  lemma ClaimableMeansHeld(env: Env, es: seq<Event>, h: string)
    requires h in Run(env, IDLE, es).desk.rows && Run(env, IDLE, es).desk.rows[h].claimDeadline.Some?
    ensures var row := Run(env, IDLE, es).desk.rows[h]; WasHeld(env, es, h, row.amountMsat, row.claimDeadline.value)
  {
    RunRecalls(env, es);
    assert RowRecalls(env, es, h, Run(env, IDLE, es).desk.rows[h]);
  }
}
