/** What every interleaving of the relay protocol keeps. */
module RelayRuns {
  import opened Wrappers
  import opened DeadlinePolicy
  import opened RelayStore
  import opened Outbox
  import opened Relay

  predicate StatusIn(db: Db, h: string, states: set<SendState>) {
    h in db.sends && db.sends[h].status in states
  }

  predicate Undone(db: Db, key: JobKey) {
    key in db.jobs && db.jobs[key].status != Done
  }

  const TAKEN := {OutboundPending, OutboundPaid, OutboundClaimed, Settled}

  /** The outbound leg was taken on, whatever became of it. */
  predicate PastTake(db: Db, h: string) {
    h in db.sends && db.sends[h].status.AtOrBeyond(OutboundPending)
  }

  ghost predicate Paid(s: System, h: string) {
    exists i :: 0 <= i < |s.payments| && s.payments[i].hash == h
  }

  ghost predicate Sending(s: System, h: string) {
    exists w :: w in s.workers && s.workers[w].PaySend? && s.workers[w].hash == h
  }

  ghost predicate ClaimedWithPreimage(env: Env, claims: set<Claim>, h: string) {
    exists p :: Claim(h, p) in claims && env.sha(p) == h
  }

  /** The gate opened at the deadline on record, for the invoice on record. */
  predicate GateWasOpen(env: Env, db: Db, h: string, g: Gate) {
    && h in db.sends && db.sends[h].status != Quoted && db.sends[h].deadline == Some(g.deadline)
    && g.finalDelta == env.finalDelta(db.sends[h].outboundInvoice)
    && GateOpens(g.deadline, g.height, RelayRequired(env.margin, g.finalDelta))
  }

  /** A job that is being worked on has a lease that ends. */
  predicate LeaseEnds(db: Db, key: JobKey) {
    key in db.jobs && db.jobs[key].status == Processing ==> db.jobs[key].lockedUntil.Some?
  }

  // ---------------------------------------------------------------- the invariant

  /** A record and its two jobs. */
  ghost predicate RecordInv(env: Env, db: Db, claims: set<Claim>, h: string) {
    && (StatusIn(db, h, {Claimable}) ==>
          PayKey(h) in db.jobs && db.sends[h].deadline.Some? && db.sends[h].deadline.value > 0)
    && (StatusIn(db, h, {OutboundClaimed}) ==>
          Undone(db, ClaimKey(h)) && db.sends[h].preimage.Some? && env.sha(db.sends[h].preimage.value) == h)
    && (StatusIn(db, h, {Settled}) ==> ClaimedWithPreimage(env, claims, h))
    && (PayKey(h) in db.jobs ==> h in db.sends && db.sends[h].status != Quoted)
    && (ClaimKey(h) in db.jobs ==> StatusIn(db, h, {OutboundClaimed, Settled}))
    && (ClaimKey(h) in db.jobs && db.jobs[ClaimKey(h)].status == Done ==> StatusIn(db, h, {Settled}))
    && LeaseEnds(db, PayKey(h)) && LeaseEnds(db, ClaimKey(h))
  }

  /** Payments of a hash: none before the leg is taken; afterwards at most one of sent,
      about to be sent, and lost with its worker. */
  ghost predicate PaymentInv(s: System, h: string) {
    && (Paid(s, h) || Sending(s, h) || h in s.lost ==> PastTake(s.db, h))
    && !(Paid(s, h) && Sending(s, h)) && !(Paid(s, h) && h in s.lost) && !(Sending(s, h) && h in s.lost)
    && (StatusIn(s.db, h, TAKEN) ==> Paid(s, h) || Sending(s, h) || h in s.lost)
  }

  ghost predicate WorkerInv(env: Env, db: Db, claims: set<Claim>, pc: Pc) {
    match pc
    case PayLoad(h) => PayKey(h) in db.jobs
    case PayGate(h, row) =>
      PayKey(h) in db.jobs && h in db.sends && db.sends[h].status != Quoted
      && row.deadline == db.sends[h].deadline && row.outboundInvoice == db.sends[h].outboundInvoice
    case PayTake(h, gate) => PayKey(h) in db.jobs && GateWasOpen(env, db, h, gate)
    case PayRecheck(h) => PayKey(h) in db.jobs
    case PaySend(h, gate) => PayKey(h) in db.jobs && PastTake(db, h) && GateWasOpen(env, db, h, gate)
    case PayRecord(h) => PayKey(h) in db.jobs && PastTake(db, h)
    case UndoCancel(h, to, _) => PayKey(h) in db.jobs && (to == Cancelled || to == Failed)
    case UndoRecord(h, to, _) => PayKey(h) in db.jobs && (to == Cancelled || to == Failed)
    case ClaimLoad(h) => ClaimKey(h) in db.jobs
    case ClaimCall(h, p) => ClaimKey(h) in db.jobs && env.sha(p) == h
    case ClaimRecord(h) => ClaimKey(h) in db.jobs && ClaimedWithPreimage(env, claims, h)
    case Report(h, action, ok) =>
      && (action == RelayPayOutbound || action == RelayClaimInbound) && JobKey(h, action) in db.jobs
      && (ok && action == RelayClaimInbound ==> StatusIn(db, h, {Settled}))
  }

  ghost predicate WorkersInv(env: Env, s: System) {
    forall w :: w in s.workers ==> WorkerInv(env, s.db, s.claims, s.workers[w])
  }

  ghost predicate OneSender(s: System) {
    forall v, w :: v in s.workers && w in s.workers && v != w && s.workers[v].PaySend? && s.workers[w].PaySend?
      ==> s.workers[v].hash != s.workers[w].hash
  }

  ghost predicate PaymentsDistinct(s: System) {
    forall i, j :: 0 <= i < j < |s.payments| ==> s.payments[i].hash != s.payments[j].hash
  }

  ghost predicate PaymentsGated(env: Env, s: System) {
    forall i :: 0 <= i < |s.payments| ==> GateWasOpen(env, s.db, s.payments[i].hash, s.payments[i].gate)
  }

  ghost predicate ClaimsMatch(env: Env, claims: set<Claim>) {
    forall c :: c in claims ==> env.sha(c.preimage) == c.hash
  }

  /** A HODL is claimed only for a record with a claim job. */
  ghost predicate ClaimsQueued(db: Db, claims: set<Claim>) {
    forall c :: c in claims ==> ClaimKey(c.hash) in db.jobs
  }

  /** A held relay's pay job is unfinished, unless the store did not take an undo of it. */
  ghost predicate HeldInv(s: System, h: string) {
    StatusIn(s.db, h, {Claimable}) ==> Undone(s.db, PayKey(h)) || h in s.unrecorded
  }

  predicate DonePays(pc: Pc) {
    pc.Report? && pc.action.RelayPayOutbound? && pc.ok
  }

  ghost predicate DoneMeansTaken(s: System) {
    forall w :: w in s.workers && DonePays(s.workers[w]) ==> PastTake(s.db, s.workers[w].hash) || s.workers[w].hash in s.unrecorded
  }

  ghost predicate SystemInv(env: Env, s: System) {
    && (forall h :: RecordInv(env, s.db, s.claims, h))
    && (forall h :: PaymentInv(s, h))
    && WorkersInv(env, s)
    && OneSender(s) && PaymentsDistinct(s) && PaymentsGated(env, s)
    && ClaimsMatch(env, s.claims) && ClaimsQueued(s.db, s.claims)
    && (forall h :: HeldInv(s, h)) && DoneMeansTaken(s)
  }

  lemma IdleInv(env: Env)
    ensures SystemInv(env, IDLE)
  {}

  // ---------------------------------------------------------------- what one step may do

  /** The table only grows, records only rise, invoices and recorded deadlines stay, and
      terminal records are final. */
  ghost predicate DbForward(db: Db, db': Db) {
    && (forall h :: h in db.sends ==>
          && h in db'.sends && db'.sends[h].status.Rank() >= db.sends[h].status.Rank()
          && db'.sends[h].outboundInvoice == db.sends[h].outboundInvoice
          && (db.sends[h].status.Terminal() ==> db'.sends[h] == db.sends[h])
          && (db.sends[h].status != Quoted ==> db'.sends[h].deadline == db.sends[h].deadline))
    && db.jobs.Keys <= db'.jobs.Keys
  }

  /** Only the record and the jobs of one hash differ. */
  ghost predicate DbTouches(db: Db, db': Db, h: string) {
    && (forall g :: g != h ==>
          (g in db.sends <==> g in db'.sends) && (g in db.sends ==> db'.sends[g] == db.sends[g]))
    && (forall k: JobKey :: k.paymentHash != h ==>
          (k in db.jobs <==> k in db'.jobs) && (k in db.jobs ==> db'.jobs[k] == db.jobs[k]))
  }

  predicate Raises(from: set<SendState>, to: SendState) {
    forall x :: x in from ==> x.Rank() <= to.Rank() && !x.Terminal()
  }

  lemma AdvanceForward(db: Db, h: string, from: set<SendState>, to: SendState, upd: Update, now: int)
    requires Raises(from, to) && (upd.deadline == None || from == {Quoted})
    ensures DbForward(db, Advance(db, h, from, to, upd, now))
    ensures DbTouches(db, Advance(db, h, from, to, upd, now), h)
  {}

  /** A store change about one hash that keeps every record's promises. */
  ghost predicate DbStep(env: Env, db: Db, claims: set<Claim>, db': Db, claims': set<Claim>, h: string) {
    && DbForward(db, db') && DbTouches(db, db', h) && claims <= claims' && ClaimsMatch(env, claims')
    && RecordInv(env, db', claims', h)
  }

  lemma ClaimsGrow(env: Env, claims: set<Claim>, claims': set<Claim>, h: string)
    requires claims <= claims'
    ensures ClaimedWithPreimage(env, claims, h) ==> ClaimedWithPreimage(env, claims', h)
  {
    if ClaimedWithPreimage(env, claims, h) {
      var p :| Claim(h, p) in claims && env.sha(p) == h;
      assert Claim(h, p) in claims';
    }
  }

  lemma RecordsKept(env: Env, db: Db, claims: set<Claim>, db': Db, claims': set<Claim>, h: string)
    requires forall g :: RecordInv(env, db, claims, g)
    requires DbStep(env, db, claims, db', claims', h)
    ensures forall g :: RecordInv(env, db', claims', g)
  {
    forall g ensures RecordInv(env, db', claims', g) {
      assert RecordInv(env, db, claims, g);
      ClaimsGrow(env, claims, claims', g);
    }
  }

  lemma WorkerKept(env: Env, db: Db, claims: set<Claim>, db': Db, claims': set<Claim>, pc: Pc)
    requires DbForward(db, db') && claims <= claims' && WorkerInv(env, db, claims, pc)
    ensures WorkerInv(env, db', claims', pc)
  {
    ClaimsGrow(env, claims, claims', pc.hash);
  }

  lemma GatesKept(env: Env, s: System, s': System)
    requires PaymentsGated(env, s) && DbForward(s.db, s'.db) && s'.payments == s.payments
    ensures PaymentsGated(env, s')
  {}

  predicate Takes(db: Db, pc: Pc) {
    pc.PayTake? && CanAdvance(db, pc.hash, {Claimable})
  }

  /** What a worker's step may do to the store and what it then knows. */
  ghost predicate Legal(env: Env, s: System, pc: Pc, m: Moved) {
    && DbStep(env, s.db, s.claims, m.db, s.claims + m.claims, pc.hash)
    && m.next.hash == pc.hash && WorkerInv(env, m.db, s.claims + m.claims, m.next)
    && m.payments == (if pc.PaySend? then [Payment(pc.hash, pc.gate)] else [])
    && (m.next.PaySend? ==> Takes(s.db, pc)) && ClaimsQueued(s.db, m.claims)
    && (StatusIn(m.db, pc.hash, TAKEN) ==> StatusIn(s.db, pc.hash, TAKEN) || m.next.PaySend?)
    && m.db.jobs == s.db.jobs && (StatusIn(m.db, pc.hash, {Claimable}) ==> StatusIn(s.db, pc.hash, {Claimable}))
    && (DonePays(m.next) ==> PastTake(m.db, pc.hash) || pc.hash in m.unrecorded)
  }

  /** What a pay worker's step makes of the store. */
  lemma PayDbIs(env: Env, db: Db, now: int, pc: Pc, a: Answer)
    requires !pc.Report? && !pc.Claims()
    ensures var db' := PayStep(env, db, now, pc, a).db;
            || db' == db
            || (pc.PayTake? && db' == Advance(db, pc.hash, {Claimable}, OutboundPending, NO_UPDATE, now))
            || (pc.PayRecord? && db' == Advance(db, pc.hash, {OutboundPending}, OutboundPaid, NO_UPDATE, now))
            || (pc.UndoRecord? && db' == Advance(db, pc.hash, UNDOABLE, pc.to, Update(None, None, Some(pc.reason), None), now))
  {}

  lemma PayDb(env: Env, s: System, pc: Pc, a: Answer)
    requires !pc.Report? && !pc.Claims() && WorkerInv(env, s.db, s.claims, pc)
    ensures var m := PayStep(env, s.db, s.now, pc, a); DbForward(s.db, m.db) && DbTouches(s.db, m.db, pc.hash)
  {
    PayDbIs(env, s.db, s.now, pc, a);
    match pc
    case PayTake(h, _) => AdvanceForward(s.db, h, {Claimable}, OutboundPending, NO_UPDATE, s.now);
    case PayRecord(h) => AdvanceForward(s.db, h, {OutboundPending}, OutboundPaid, NO_UPDATE, s.now);
    case UndoRecord(h, to, reason) =>
      AdvanceForward(s.db, h, UNDOABLE, to, Update(None, None, Some(reason), None), s.now);
    case _ =>
  }

  lemma PayRecordKept(env: Env, s: System, pc: Pc, a: Answer)
    requires !pc.Report? && !pc.Claims() && WorkerInv(env, s.db, s.claims, pc)
    requires RecordInv(env, s.db, s.claims, pc.hash)
    ensures RecordInv(env, PayStep(env, s.db, s.now, pc, a).db, s.claims, pc.hash)
  {}

  lemma GateNext(env: Env, s: System, pc: Pc, a: Answer)
    requires (pc.PayGate? || pc.PayTake?) && WorkerInv(env, s.db, s.claims, pc)
    ensures var m := PayStep(env, s.db, s.now, pc, a);
            m.next.hash == pc.hash && WorkerInv(env, m.db, s.claims, m.next)
  {}

  lemma LastNext(env: Env, s: System, pc: Pc, a: Answer)
    requires (pc.PaySend? || pc.PayRecord? || pc.UndoRecord? || pc.UndoCancel?) && WorkerInv(env, s.db, s.claims, pc)
    ensures var m := PayStep(env, s.db, s.now, pc, a);
            m.next.hash == pc.hash && WorkerInv(env, m.db, s.claims, m.next)
  {}

  lemma PayNext(env: Env, s: System, pc: Pc, a: Answer)
    requires !pc.Report? && !pc.Claims() && WorkerInv(env, s.db, s.claims, pc)
    requires RecordInv(env, s.db, s.claims, pc.hash)
    ensures var m := PayStep(env, s.db, s.now, pc, a);
            m.next.hash == pc.hash && WorkerInv(env, m.db, s.claims, m.next)
  {
    if pc.PayGate? || pc.PayTake? {
      GateNext(env, s, pc, a);
    } else if !pc.PayLoad? && !pc.PayRecheck? {
      LastNext(env, s, pc, a);
    }
  }

  lemma PayEffects(env: Env, s: System, pc: Pc, a: Answer)
    requires !pc.Report? && !pc.Claims() && WorkerInv(env, s.db, s.claims, pc)
    ensures var m := PayStep(env, s.db, s.now, pc, a);
            && m.claims == {} && m.payments == (if pc.PaySend? then [Payment(pc.hash, pc.gate)] else [])
            && (m.next.PaySend? ==> Takes(s.db, pc))
            && (StatusIn(m.db, pc.hash, TAKEN) ==> StatusIn(s.db, pc.hash, TAKEN) || m.next.PaySend?)
  {}

  lemma PayHeld(env: Env, s: System, pc: Pc, a: Answer)
    requires !pc.Report? && !pc.Claims() && WorkerInv(env, s.db, s.claims, pc)
    requires RecordInv(env, s.db, s.claims, pc.hash)
    ensures var m := PayStep(env, s.db, s.now, pc, a);
            && m.db.jobs == s.db.jobs && (StatusIn(m.db, pc.hash, {Claimable}) ==> StatusIn(s.db, pc.hash, {Claimable}))
            && (DonePays(m.next) ==> PastTake(m.db, pc.hash) || pc.hash in m.unrecorded)
  {}

  lemma PayLegal(env: Env, s: System, pc: Pc, m: Moved, a: Answer)
    requires !pc.Report? && !pc.Claims() && m == PayStep(env, s.db, s.now, pc, a)
    requires WorkerInv(env, s.db, s.claims, pc) && RecordInv(env, s.db, s.claims, pc.hash) && ClaimsMatch(env, s.claims)
    ensures Legal(env, s, pc, m)
  {
    PayDb(env, s, pc, a);
    PayRecordKept(env, s, pc, a);
    PayNext(env, s, pc, a);
    PayEffects(env, s, pc, a);
    PayHeld(env, s, pc, a);
    assert s.claims + {} == s.claims;
  }

  lemma ClaimDb(s: System, pc: Pc, a: Answer)
    requires pc.Claims()
    ensures var m := ClaimStep(s.db, s.now, pc, a); DbForward(s.db, m.db) && DbTouches(s.db, m.db, pc.hash)
  {
    if pc.ClaimRecord? {
      AdvanceForward(s.db, pc.hash, {OutboundClaimed}, Settled, NO_UPDATE, s.now);
    }
  }

  lemma ClaimRecordKept(env: Env, s: System, pc: Pc, a: Answer)
    requires pc.Claims() && WorkerInv(env, s.db, s.claims, pc)
    requires RecordInv(env, s.db, s.claims, pc.hash)
    ensures RecordInv(env, ClaimStep(s.db, s.now, pc, a).db, s.claims, pc.hash)
  {}

  lemma ClaimNext(env: Env, s: System, pc: Pc, a: Answer)
    requires pc.Claims() && WorkerInv(env, s.db, s.claims, pc) && RecordInv(env, s.db, s.claims, pc.hash)
    ensures var m := ClaimStep(s.db, s.now, pc, a);
            m.next.hash == pc.hash && WorkerInv(env, m.db, s.claims + m.claims, m.next)
  {
    if pc.ClaimCall? && a.claimed {
      assert Claim(pc.hash, pc.preimage) in s.claims + {Claim(pc.hash, pc.preimage)};
    }
  }

  lemma ClaimMatches(env: Env, s: System, pc: Pc, a: Answer)
    requires pc.Claims() && WorkerInv(env, s.db, s.claims, pc) && ClaimsMatch(env, s.claims)
    ensures var m := ClaimStep(s.db, s.now, pc, a); ClaimsMatch(env, s.claims + m.claims) && ClaimsQueued(s.db, m.claims)
  {}

  lemma ClaimEffects(env: Env, s: System, pc: Pc, a: Answer)
    requires pc.Claims() && WorkerInv(env, s.db, s.claims, pc)
    ensures var m := ClaimStep(s.db, s.now, pc, a);
            && m.payments == [] && !m.next.PaySend? && !DonePays(m.next)
            && m.db.jobs == s.db.jobs && (StatusIn(m.db, pc.hash, {Claimable}) ==> StatusIn(s.db, pc.hash, {Claimable}))
            && (StatusIn(m.db, pc.hash, TAKEN) ==> StatusIn(s.db, pc.hash, TAKEN))
  {}

  lemma ClaimLegal(env: Env, s: System, pc: Pc, m: Moved, a: Answer)
    requires pc.Claims() && m == ClaimStep(s.db, s.now, pc, a)
    requires WorkerInv(env, s.db, s.claims, pc) && RecordInv(env, s.db, s.claims, pc.hash) && ClaimsMatch(env, s.claims)
    ensures Legal(env, s, pc, m)
  {
    ClaimDb(s, pc, a);
    ClaimRecordKept(env, s, pc, a);
    ClaimNext(env, s, pc, a);
    ClaimMatches(env, s, pc, a);
    ClaimEffects(env, s, pc, a);
    ClaimsGrow(env, s.claims, s.claims + m.claims, pc.hash);
  }

  lemma StepLegal(env: Env, s: System, pc: Pc, a: Answer)
    requires !pc.Report? && WorkerInv(env, s.db, s.claims, pc)
    requires RecordInv(env, s.db, s.claims, pc.hash) && ClaimsMatch(env, s.claims)
    ensures Legal(env, s, pc, WorkerStep(env, s.db, s.now, pc, a))
  {
    if pc.Claims() {
      ClaimLegal(env, s, pc, ClaimStep(s.db, s.now, pc, a), a);
    } else {
      PayLegal(env, s, pc, PayStep(env, s.db, s.now, pc, a), a);
    }
  }

  // ---------------------------------------------------------------- a worker's step

  lemma MovingWorkers(env: Env, s: System, w: nat, m: Moved)
    requires SystemInv(env, s) && w in s.workers && Legal(env, s, s.workers[w], m)
    ensures WorkersInv(env, Moving(s, w, m))
  {
    forall v | v in s.workers && v != w ensures WorkerInv(env, m.db, s.claims + m.claims, s.workers[v]) {
      WorkerKept(env, s.db, s.claims, m.db, s.claims + m.claims, s.workers[v]);
    }
  }

  /** Changing one worker matters only to the hashes it is about to send for. */
  lemma SendingElsewhere(s: System, s': System, w: nat, g: string)
    requires forall v :: v != w ==> (v in s.workers <==> v in s'.workers) && (v in s.workers ==> s'.workers[v] == s.workers[v])
    requires w in s.workers && s.workers[w].PaySend? ==> s.workers[w].hash != g
    requires w in s'.workers && s'.workers[w].PaySend? ==> s'.workers[w].hash != g
    ensures Sending(s', g) <==> Sending(s, g)
  {
    if Sending(s, g) {
      var v :| v in s.workers && s.workers[v].PaySend? && s.workers[v].hash == g;
      assert v in s'.workers && s'.workers[v].PaySend? && s'.workers[v].hash == g;
    }
    if Sending(s', g) {
      var v :| v in s'.workers && s'.workers[v].PaySend? && s'.workers[v].hash == g;
      assert v in s.workers && s.workers[v].PaySend? && s.workers[v].hash == g;
    }
  }

  /** The worker takes the payment: nobody else had. */
  lemma TakingPayment(env: Env, s: System, w: nat, m: Moved, g: string)
    requires SystemInv(env, s) && w in s.workers && Legal(env, s, s.workers[w], m) && m.next.PaySend?
    ensures PaymentInv(Moving(s, w, m), g) && OneSender(Moving(s, w, m))
  {
    var s' := Moving(s, w, m);
    var h := s.workers[w].hash;
    assert PaymentInv(s, h) && PaymentInv(s, g);
    assert !Paid(s, h) && !Sending(s, h) && h !in s.lost;
    assert s'.payments == s.payments && s'.workers[w].PaySend? && s'.workers[w].hash == h;
    assert Paid(s', g) <==> Paid(s, g);
    if g != h {
      SendingElsewhere(s, s', w, g);
    }
  }

  /** The worker sends: it was the only one about to. */
  lemma SendingPayment(env: Env, s: System, w: nat, m: Moved, g: string)
    requires SystemInv(env, s) && w in s.workers && Legal(env, s, s.workers[w], m) && s.workers[w].PaySend?
    ensures PaymentInv(Moving(s, w, m), g)
  {
    var s' := Moving(s, w, m);
    var h := s.workers[w].hash;
    assert PaymentInv(s, h) && PaymentInv(s, g) && WorkerInv(env, s.db, s.claims, s.workers[w]);
    assert Sending(s, h) && !Sending(s', h);
    assert s'.payments[|s.payments|].hash == h;
    assert forall i :: 0 <= i < |s.payments| ==> s'.payments[i] == s.payments[i];
    if g != h {
      assert Paid(s', g) <==> Paid(s, g);
      SendingElsewhere(s, s', w, g);
    }
  }

  lemma QuietPayments(s: System, s': System, g: string)
    requires PaymentInv(s, g) && DbForward(s.db, s'.db) && s'.payments == s.payments && s'.lost == s.lost
    requires Sending(s', g) <==> Sending(s, g)
    requires StatusIn(s'.db, g, TAKEN) ==> StatusIn(s.db, g, TAKEN)
    ensures PaymentInv(s', g)
  {
    assert Paid(s', g) <==> Paid(s, g);
  }

  lemma MovingPayment(env: Env, s: System, w: nat, m: Moved, g: string)
    requires SystemInv(env, s) && w in s.workers && Legal(env, s, s.workers[w], m)
    ensures PaymentInv(Moving(s, w, m), g)
  {
    if m.next.PaySend? {
      TakingPayment(env, s, w, m, g);
    } else if s.workers[w].PaySend? {
      SendingPayment(env, s, w, m, g);
    } else {
      assert PaymentInv(s, g) && s.payments + m.payments == s.payments;
      SendingElsewhere(s, Moving(s, w, m), w, g);
      QuietPayments(s, Moving(s, w, m), g);
    }
  }

  lemma MovingSenders(env: Env, s: System, w: nat, m: Moved)
    requires SystemInv(env, s) && w in s.workers && Legal(env, s, s.workers[w], m)
    ensures OneSender(Moving(s, w, m))
  {
    if m.next.PaySend? {
      TakingPayment(env, s, w, m, s.workers[w].hash);
    }
  }

  lemma MovingLog(env: Env, s: System, w: nat, m: Moved)
    requires SystemInv(env, s) && w in s.workers && Legal(env, s, s.workers[w], m)
    ensures PaymentsDistinct(Moving(s, w, m)) && PaymentsGated(env, Moving(s, w, m))
  {
    var h := s.workers[w].hash;
    assert PaymentInv(s, h) && WorkerInv(env, s.db, s.claims, s.workers[w]);
    assert s.workers[w].PaySend? ==> Sending(s, h) && !Paid(s, h);
  }

  lemma MovingHeld(env: Env, s: System, w: nat, m: Moved)
    requires SystemInv(env, s) && w in s.workers && Legal(env, s, s.workers[w], m)
    ensures (forall g :: HeldInv(Moving(s, w, m), g)) && DoneMeansTaken(Moving(s, w, m))
  {
    forall g ensures HeldInv(Moving(s, w, m), g) {
      assert HeldInv(s, g);
    }
  }

  lemma MovingKeeps(env: Env, s: System, w: nat, m: Moved)
    requires SystemInv(env, s) && w in s.workers && Legal(env, s, s.workers[w], m)
    ensures SystemInv(env, Moving(s, w, m))
  {
    RecordsKept(env, s.db, s.claims, m.db, s.claims + m.claims, s.workers[w].hash);
    MovingWorkers(env, s, w, m);
    forall g ensures PaymentInv(Moving(s, w, m), g) {
      MovingPayment(env, s, w, m, g);
    }
    MovingSenders(env, s, w, m);
    MovingLog(env, s, w, m);
    MovingHeld(env, s, w, m);
  }

  // ---------------------------------------------------------------- the other events

  /** A step in which no worker starts or stops being about to send. */
  ghost predicate SameSenders(s: System, s': System) {
    && (forall w :: w in s'.workers && s'.workers[w].PaySend? ==> w in s.workers && s.workers[w] == s'.workers[w])
    && (forall w :: w in s.workers && s.workers[w].PaySend? ==> w in s'.workers && s.workers[w] == s'.workers[w])
  }

  lemma SameSending(s: System, s': System, g: string)
    requires SameSenders(s, s')
    ensures Sending(s', g) <==> Sending(s, g)
  {}

  lemma QuietKeeps(env: Env, s: System, s': System, h: string)
    requires SystemInv(env, s) && DbStep(env, s.db, s.claims, s'.db, s'.claims, h)
    requires s'.payments == s.payments && s'.lost == s.lost && s'.claims == s.claims && SameSenders(s, s')
    requires StatusIn(s'.db, h, TAKEN) ==> StatusIn(s.db, h, TAKEN)
    requires s'.unrecorded == s.unrecorded && HeldInv(s', h)
    requires forall w :: w in s'.workers && DonePays(s'.workers[w]) ==> w in s.workers && s'.workers[w] == s.workers[w]
    requires forall w :: w in s'.workers && !(w in s.workers && s'.workers[w] == s.workers[w]) ==>
                           WorkerInv(env, s'.db, s'.claims, s'.workers[w])
    ensures SystemInv(env, s')
  {
    RecordsKept(env, s.db, s.claims, s'.db, s'.claims, h);
    forall w | w in s'.workers ensures WorkerInv(env, s'.db, s'.claims, s'.workers[w]) {
      if w in s.workers && s'.workers[w] == s.workers[w] {
        WorkerKept(env, s.db, s.claims, s'.db, s'.claims, s.workers[w]);
      }
    }
    forall g ensures PaymentInv(s', g) {
      assert PaymentInv(s, g);
      SameSending(s, s', g);
      QuietPayments(s, s', g);
    }
    GatesKept(env, s, s');
    assert ClaimsQueued(s'.db, s.claims);
    forall g ensures HeldInv(s', g) {
      assert HeldInv(s, g);
    }
  }

  lemma QuoteKeeps(env: Env, s: System, h: string, invoice: string)
    requires SystemInv(env, s)
    ensures SystemInv(env, Exec(env, s, Quote(h, invoice)))
  {
    assert RecordInv(env, s.db, s.claims, h);
    QuietKeeps(env, s, Exec(env, s, Quote(h, invoice)), h);
  }

  lemma HtlcHeldDb(env: Env, s: System, h: string, deadline: Uint32)
    requires RecordInv(env, s.db, s.claims, h) && ClaimsMatch(env, s.claims)
    ensures var db' := MarkClaimable(s.db, h, deadline, s.now);
            && DbStep(env, s.db, s.claims, db', s.claims, h)
            && (StatusIn(db', h, TAKEN) ==> StatusIn(s.db, h, TAKEN))
  {
    AdvanceForward(s.db, h, {Quoted}, Claimable, Update(Some(deadline), None, None, Some(RelayPayOutbound)), s.now);
  }

  lemma HtlcHeldKeeps(env: Env, s: System, h: string, deadline: Uint32)
    requires SystemInv(env, s)
    ensures SystemInv(env, Exec(env, s, HtlcHeld(h, deadline)))
  {
    assert RecordInv(env, s.db, s.claims, h);
    HtlcHeldDb(env, s, h, deadline);
    QuietKeeps(env, s, Exec(env, s, HtlcHeld(h, deadline)), h);
  }

  lemma PaymentSentDb(env: Env, s: System, h: string, p: string)
    requires RecordInv(env, s.db, s.claims, h) && ClaimsMatch(env, s.claims)
    ensures var db' := MarkPreimage(env, s.db, h, p, s.now);
            && DbStep(env, s.db, s.claims, db', s.claims, h)
            && (StatusIn(db', h, TAKEN) ==> StatusIn(s.db, h, TAKEN))
  {
    AdvanceForward(s.db, h, {OutboundPending, OutboundPaid}, OutboundClaimed,
                   Update(None, Some(p), None, Some(RelayClaimInbound)), s.now);
  }

  lemma PaymentSentKeeps(env: Env, s: System, h: string, p: string)
    requires SystemInv(env, s)
    ensures SystemInv(env, Exec(env, s, PaymentSent(h, p)))
  {
    assert RecordInv(env, s.db, s.claims, h);
    PaymentSentDb(env, s, h, p);
    QuietKeeps(env, s, Exec(env, s, PaymentSent(h, p)), h);
  }

  lemma TakingDb(env: Env, s: System, w: nat, key: JobKey)
    requires RecordInv(env, s.db, s.claims, key.paymentHash) && HeldInv(s, key.paymentHash) && ClaimsMatch(env, s.claims)
    requires key in s.db.jobs && Eligible(s.db.jobs[key], s.now)
    ensures DbStep(env, s.db, s.claims, Taking(s, w, key).db, s.claims, key.paymentHash)
    ensures Taking(s, w, key).db.sends == s.db.sends && HeldInv(Taking(s, w, key), key.paymentHash)
  {}

  lemma TakingKeeps(env: Env, s: System, w: nat, key: JobKey)
    requires SystemInv(env, s) && w !in s.workers && key in s.db.jobs && Eligible(s.db.jobs[key], s.now)
    requires key.action.RelayPayOutbound? || key.action.RelayClaimInbound?
    ensures SystemInv(env, Taking(s, w, key))
  {
    assert RecordInv(env, s.db, s.claims, key.paymentHash) && HeldInv(s, key.paymentHash);
    TakingDb(env, s, w, key);
    QuietKeeps(env, s, Taking(s, w, key), key.paymentHash);
  }

  lemma ReportingDb(env: Env, s: System, w: nat)
    requires w in s.workers && s.workers[w].Report? && WorkerInv(env, s.db, s.claims, s.workers[w])
    requires RecordInv(env, s.db, s.claims, s.workers[w].hash) && ClaimsMatch(env, s.claims)
    ensures DbStep(env, s.db, s.claims, Reporting(s, w).db, s.claims, s.workers[w].hash)
    ensures Reporting(s, w).db.sends == s.db.sends
  {}

  lemma ReportingKeeps(env: Env, s: System, w: nat)
    requires SystemInv(env, s) && w in s.workers && s.workers[w].Report?
    ensures SystemInv(env, Reporting(s, w))
  {
    assert WorkerInv(env, s.db, s.claims, s.workers[w]) && RecordInv(env, s.db, s.claims, s.workers[w].hash);
    ReportingDb(env, s, w);
    QuietKeeps(env, s, Reporting(s, w), s.workers[w].hash);
  }

  lemma CrashingKeeps(env: Env, s: System, w: nat)
    requires SystemInv(env, s)
    ensures SystemInv(env, Crashing(s, w))
  {
    var s' := Crashing(s, w);
    if w in s.workers && s.workers[w].PaySend? {
      var h := s.workers[w].hash;
      assert WorkerInv(env, s.db, s.claims, s.workers[w]) && PaymentInv(s, h) && Sending(s, h);
      assert !Sending(s', h);
      forall g ensures PaymentInv(s', g) {
        assert PaymentInv(s, g);
        assert Paid(s', g) <==> Paid(s, g);
        if g != h {
          SendingElsewhere(s, s', w, g);
        }
      }
      assert forall g :: HeldInv(s, g) ==> HeldInv(s', g);
    } else {
      assert RecordInv(env, s.db, s.claims, "") && HeldInv(s, "");
      QuietKeeps(env, s, s', "");
    }
  }

  lemma StepKeeps(env: Env, s: System, e: Event)
    requires SystemInv(env, s)
    ensures SystemInv(env, Exec(env, s, e))
  {
    match e
    case Quote(h, invoice) => QuoteKeeps(env, s, h, invoice);
    case HtlcHeld(h, deadline) => HtlcHeldKeeps(env, s, h, deadline);
    case PaymentSent(h, p) => PaymentSentKeeps(env, s, h, p);
    case Tick(_) =>
      assert RecordInv(env, s.db, s.claims, "") && HeldInv(s, "");
      QuietKeeps(env, s, Exec(env, s, e), "");
    case TakeJob(w, key) =>
      if Exec(env, s, e) != s {
        TakingKeeps(env, s, w, key);
      }
    case Go(w, a) =>
      if w in s.workers {
        if s.workers[w].Report? {
          ReportingKeeps(env, s, w);
        } else {
          assert WorkerInv(env, s.db, s.claims, s.workers[w]) && RecordInv(env, s.db, s.claims, s.workers[w].hash);
          StepLegal(env, s, s.workers[w], a);
          MovingKeeps(env, s, w, WorkerStep(env, s.db, s.now, s.workers[w], a));
        }
      }
    case Crash(w) => CrashingKeeps(env, s, w);
  }

  lemma {:induction false} RunKeeps(env: Env, s: System, es: seq<Event>)
    requires SystemInv(env, s)
    ensures SystemInv(env, Run(env, s, es))
    decreases |es|
  {
    if es != [] {
      StepKeeps(env, s, es[0]);
      RunKeeps(env, Exec(env, s, es[0]), es[1..]);
    }
  }
}
