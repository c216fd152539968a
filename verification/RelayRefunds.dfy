/** What can still happen to a relay: from any reachable state, exactly when it can still be
    refunded, when its HODL can still be cancelled, and when its payment can still start. */
module RelayRefunds {
  import opened Wrappers
  import opened DeadlinePolicy
  import opened RelayStore
  import opened Outbox
  import opened Relay
  import opened RelayRuns
  import opened RelayChains
  import opened RelayTheorems

  const HELD := {Claimable, OutboundPending}
  const COLLECTING := {OutboundPaid, OutboundClaimed, Settled}

  /** The relay's HTLC was reported held, whatever became of it. */
  predicate PastQuote(db: Db, h: string) {
    h in db.sends && db.sends[h].status != Quoted
  }

  /** What a worker may still bring about: record an undo or start the job over, call the
      cancel or start over, pay or start over, and call the cancel whatever the record says. */
  datatype Kind = ToUndo | ToCancel | ToPay | ToRefuse

  /** A worker of the pay job that has not reported, or is about to report a retry. */
  predicate Works(pc: Pc, h: string) {
    pc.hash == h && !pc.Claims() && (pc.Report? ==> pc == PayDone(h, false))
  }

  predicate Is(k: Kind, pc: Pc, h: string) {
    match k
    case ToUndo => Works(pc, h)
    case ToCancel => Works(pc, h) && !pc.UndoRecord?
    case ToPay => Works(pc, h) && !pc.UndoRecord? && !pc.UndoCancel?
    case ToRefuse => pc.hash == h && (pc.PayGate? || pc.PaySend? || pc.UndoCancel?)
  }

  ghost predicate Someone(s: System, h: string, k: Kind) {
    exists w :: w in s.workers && Is(k, s.workers[w], h)
  }

  /** The pay job is unfinished, or a worker of this kind is still at it. */
  ghost predicate Unfinished(s: System, h: string, k: Kind) {
    Undone(s.db, PayKey(h)) || Someone(s, h, k)
  }

  ghost predicate MayFail(s: System, h: string) {
    StatusIn(s.db, h, REFUNDED) || !PastQuote(s.db, h) || (StatusIn(s.db, h, HELD) && Unfinished(s, h, ToUndo))
  }

  ghost predicate Cancellable(s: System, h: string) {
    StatusIn(s.db, h, HELD) && Unfinished(s, h, ToCancel)
  }

  ghost predicate MayCancel(s: System, h: string) {
    !PastQuote(s.db, h) || Cancellable(s, h) || Someone(s, h, ToRefuse)
  }

  /** No deadline leaves more blocks than this. */
  const MAX_DEADLINE := 0xFFFF_FFFF

  ghost predicate Payable(env: Env, s: System, h: string) {
    if h !in s.db.sends then exists invoice :: Required(env, invoice) < MAX_DEADLINE
    else
      var row := s.db.sends[h];
      || (row.status == Quoted && Required(env, row.outboundInvoice) < MAX_DEADLINE)
      || (row.status == Claimable && row.deadline.Some? && row.deadline.value > Required(env, row.outboundInvoice)
          && Unfinished(s, h, ToPay))
  }

  ghost predicate MayPay(env: Env, s: System, h: string) {
    Payable(env, s, h) || Sending(s, h)
  }

  // ---------------------------------------------------------------- one step of a worker

  lemma WorkerStaysKind(env: Env, db: Db, now: int, pc: Pc, a: Answer, h: string, k: Kind)
    requires !pc.Report? && k != ToRefuse
    ensures Is(k, WorkerStep(env, db, now, pc, a).next, h) ==> Is(k, pc, h)
  {}

  lemma WorkerRefuses(env: Env, db: Db, now: int, pc: Pc, a: Answer, h: string)
    requires !pc.Report? && PastQuote(db, h)
    ensures Is(ToRefuse, WorkerStep(env, db, now, pc, a).next, h) ==>
              Is(ToRefuse, pc, h) || (StatusIn(db, h, HELD) && Is(ToCancel, pc, h))
  {}

  lemma WorkerCancels(env: Env, db: Db, now: int, pc: Pc, a: Answer, h: string)
    requires !pc.Report?
    ensures WorkerStep(env, db, now, pc, a).cancels[h] == 0 || Is(ToRefuse, pc, h)
  {}

  /** A worker leaves a collecting record collecting, and only an undo refunds a held one. */
  lemma WorkerStatus(env: Env, db: Db, now: int, pc: Pc, a: Answer, h: string)
    requires !pc.Report? && PastQuote(db, h)
    ensures var db' := WorkerStep(env, db, now, pc, a).db;
            && (StatusIn(db, h, COLLECTING) ==> StatusIn(db', h, COLLECTING))
            && (StatusIn(db, h, HELD) && !Works(pc, h) ==> db' == db || (pc.hash != h && db'.sends.Keys == db.sends.Keys
                                                                          && db'.sends[h] == db.sends[h]))
  {}

  // ---------------------------------------------------------------- one step of the system

  /** The workers stay the same but for one that moves on, leaves or arrives. */
  lemma OthersStay(s: System, s': System, w: nat, h: string, k: Kind)
    requires forall v :: v != w && v in s'.workers ==> v in s.workers && s'.workers[v] == s.workers[v]
    ensures Someone(s', h, k) ==> Someone(s, h, k) || (w in s'.workers && Is(k, s'.workers[w], h))
  {}

  lemma ReportUnfinished(env: Env, s: System, w: nat, h: string, k: Kind)
    requires SystemInv(env, s) && w in s.workers && s.workers[w].Report? && k != ToRefuse
    ensures Unfinished(Reporting(s, w), h, k) ==> Unfinished(s, h, k)
  {
    OthersStay(s, Reporting(s, w), w, h, k);
    assert WorkerInv(env, s.db, s.claims, s.workers[w]);
    assert s.workers[w] == PayDone(h, false) ==> Is(k, s.workers[w], h);
  }

  lemma GoUnfinished(env: Env, s: System, w: nat, a: Answer, h: string, k: Kind)
    requires SystemInv(env, s) && w in s.workers && k != ToRefuse
    ensures Unfinished(Exec(env, s, Go(w, a)), h, k) ==> Unfinished(s, h, k)
  {
    var s', pc := Exec(env, s, Go(w, a)), s.workers[w];
    if pc.Report? {
      ReportUnfinished(env, s, w, h, k);
    } else {
      OthersStay(s, s', w, h, k);
      assert WorkerInv(env, s.db, s.claims, pc) && RecordInv(env, s.db, s.claims, pc.hash);
      StepLegal(env, s, pc, a);
      WorkerStaysKind(env, s.db, s.now, pc, a, h, k);
    }
  }

  lemma TakingUnfinished(env: Env, s: System, w: nat, key: JobKey, h: string, k: Kind)
    requires w !in s.workers && key in s.db.jobs && Eligible(s.db.jobs[key], s.now) && k != ToRefuse
    requires key.action.RelayPayOutbound? || key.action.RelayClaimInbound?
    ensures Unfinished(Taking(s, w, key), h, k) ==> Unfinished(s, h, k)
  {
    OthersStay(s, Taking(s, w, key), w, h, k);
  }

  /** Webhooks, quotes and the clock leave workers alone and finish or reopen no pay job. */
  lemma OutsideUnfinished(env: Env, s: System, e: Event, h: string, k: Kind)
    requires PastQuote(s.db, h) && (e.Quote? || e.HtlcHeld? || e.PaymentSent? || e.Tick?)
    ensures Unfinished(Exec(env, s, e), h, k) ==> Unfinished(s, h, k)
  {
    OthersStay(s, Exec(env, s, e), 0, h, k);
  }

  /** Once the pay job of a held relay is finished, nothing makes it unfinished again. */
  lemma StepUnfinished(env: Env, s: System, e: Event, h: string, k: Kind)
    requires SystemInv(env, s) && PastQuote(s.db, h) && k != ToRefuse
    ensures Unfinished(Exec(env, s, e), h, k) ==> Unfinished(s, h, k)
  {
    match e
    case Go(w, a) =>
      if w in s.workers {
        GoUnfinished(env, s, w, a, h, k);
      }
    case TakeJob(w, key) =>
      if Exec(env, s, e) != s {
        TakingUnfinished(env, s, w, key, h, k);
      }
    case Crash(w) => OthersStay(s, Crashing(s, w), w, h, k);
    case _ => OutsideUnfinished(env, s, e, h, k);
  }

  lemma StepRefusers(env: Env, s: System, e: Event, h: string)
    requires SystemInv(env, s) && PastQuote(s.db, h)
    ensures Someone(Exec(env, s, e), h, ToRefuse) ==> Someone(s, h, ToRefuse) || Cancellable(s, h)
    ensures Exec(env, s, e).cancels[h] == s.cancels[h] || Someone(s, h, ToRefuse)
  {
    var s' := Exec(env, s, e);
    match e
    case Go(w, a) =>
      if w in s.workers {
        OthersStay(s, s', w, h, ToRefuse);
        if !s.workers[w].Report? {
          WorkerRefuses(env, s.db, s.now, s.workers[w], a, h);
          WorkerCancels(env, s.db, s.now, s.workers[w], a, h);
        }
      }
    case TakeJob(w, key) => OthersStay(s, s', w, h, ToRefuse);
    case Crash(w) => OthersStay(s, s', w, h, ToRefuse);
    case _ => OthersStay(s, s', 0, h, ToRefuse);
  }

  /** Collecting relays stay collecting; a held one nobody works at stays held, unless the
      preimage arrives. */
  lemma StepStatus(env: Env, s: System, e: Event, h: string)
    requires PastQuote(s.db, h)
    ensures var db' := Exec(env, s, e).db;
            && (StatusIn(s.db, h, COLLECTING) ==> StatusIn(db', h, COLLECTING))
            && (StatusIn(s.db, h, HELD) && !Someone(s, h, ToUndo) ==>
                  h in db'.sends && (db'.sends[h] == s.db.sends[h]
                                     || (StatusIn(s.db, h, {OutboundPending}) && StatusIn(db', h, COLLECTING))))
  {
    if e.Go? && e.worker in s.workers && !s.workers[e.worker].Report? {
      WorkerStatus(env, s.db, s.now, s.workers[e.worker], e.answer, h);
    }
  }

  // ---------------------------------------------------------------- never again

  ghost predicate NoMoreFails(s: System, h: string) {
    StatusIn(s.db, h, COLLECTING) || (StatusIn(s.db, h, HELD) && !Unfinished(s, h, ToUndo))
  }

  lemma {:induction false} NeverFails(env: Env, s: System, es: seq<Event>, h: string)
    requires SystemInv(env, s) && NoMoreFails(s, h)
    ensures NoMoreFails(Run(env, s, es), h)
    ensures StatusIn(s.db, h, {Claimable}) ==>
              h in Run(env, s, es).db.sends && Run(env, s, es).db.sends[h] == s.db.sends[h]
    decreases |es|
  {
    if es != [] {
      StepStatus(env, s, es[0], h);
      StepUnfinished(env, s, es[0], h, ToUndo);
      StepKeeps(env, s, es[0]);
      NeverFails(env, Exec(env, s, es[0]), es[1..], h);
    }
  }

  lemma StepCancellable(env: Env, s: System, e: Event, h: string)
    requires SystemInv(env, s) && PastQuote(s.db, h)
    ensures PastQuote(Exec(env, s, e).db, h) && (Cancellable(Exec(env, s, e), h) ==> Cancellable(s, h))
  {
    StepForward(env, s, e);
    StepUnfinished(env, s, e, h, ToCancel);
  }

  lemma {:induction false} NeverCancels(env: Env, s: System, es: seq<Event>, h: string)
    requires SystemInv(env, s) && !MayCancel(s, h)
    ensures Run(env, s, es).cancels[h] == s.cancels[h]
    decreases |es|
  {
    if es != [] {
      StepCancellable(env, s, es[0], h);
      StepRefusers(env, s, es[0], h);
      StepKeeps(env, s, es[0]);
      NeverCancels(env, Exec(env, s, es[0]), es[1..], h);
    }
  }

  // ---------------------------------------------------------------- still possible

  /** A worker has called the cancel, which took effect, and is about to record it. */
  predicate Undoing(s: System, s': System, h: string, w: nat) {
    && s'.db.sends == s.db.sends && s'.cancels == s.cancels + multiset{h}
    && w in s'.workers && s'.workers[w].UndoRecord? && s'.workers[w].hash == h && s'.workers[w].to in REFUNDED
  }

  lemma UndoIsCalled(env: Env, s: System, w: nat, h: string) returns (es: seq<Event>)
    requires SystemInv(env, s) && w in s.workers && s.workers[w].hash == h && s.workers[w].UndoCancel?
    ensures Undoing(s, Run(env, s, es), h, w)
  {
    assert WorkerInv(env, s.db, s.claims, s.workers[w]);
    CancelStep(env, s, w, Refusal(true), h, s.workers[w].to, s.workers[w].reason);
    es := [Go(w, Refusal(true))];
    RunOne(env, s, Go(w, Refusal(true)));
  }

  lemma SendIsRefused(env: Env, s: System, w: nat, h: string)
    requires w in s.workers && s.workers[w].hash == h && s.workers[w].PaySend?
    ensures var s' := Exec(env, s, Go(w, Refusal(true)));
            s'.db == s.db && s'.cancels == s.cancels && At(s', w, UndoCancel(h, Cancelled, "failed"))
  {}

  lemma RefuserUndoes(env: Env, s: System, w: nat, h: string) returns (es: seq<Event>)
    requires SystemInv(env, s) && w in s.workers && Is(ToRefuse, s.workers[w], h)
    ensures Undoing(s, Run(env, s, es), h, w)
  {
    match s.workers[w]
    case PayGate(_, row) => es := GateRefuses(env, s, w, h, row, true);
    case PaySend(_, _) =>
      var go := Go(w, Refusal(true));
      SendIsRefused(env, s, w, h);
      StepKeeps(env, s, go);
      var rest := UndoIsCalled(env, Exec(env, s, go), w, h);
      es := [go] + rest;
      RunFirst(env, s, go, rest);
    case UndoCancel(_, _, _) => es := UndoIsCalled(env, s, w, h);
  }

  lemma WorkerUndoes(env: Env, s: System, v: nat, h: string) returns (es: seq<Event>, w: nat)
    requires SystemInv(env, s) && StatusIn(s.db, h, HELD) && v in s.workers && Is(ToCancel, s.workers[v], h)
    ensures Undoing(s, Run(env, s, es), h, w)
  {
    assert WorkerInv(env, s.db, s.claims, s.workers[v]);
    if Is(ToRefuse, s.workers[v], h) {
      w := v;
      es := RefuserUndoes(env, s, v, h);
    } else if s.workers[v].PayLoad? {
      w := v;
      es := LoadedIsRefused(env, s, v, h, true);
    } else {
      var reopen := WorkerReopensJob(env, s, v, h);
      var rest: seq<Event>;
      rest, w := JobIsRefused(env, Run(env, s, reopen), h, true);
      es := reopen + rest;
      RunConcat(env, s, reopen, rest);
    }
  }

  lemma CancellableUndoes(env: Env, s: System, h: string) returns (es: seq<Event>, w: nat)
    requires SystemInv(env, s) && Cancellable(s, h)
    ensures Undoing(s, Run(env, s, es), h, w)
  {
    assert RecordInv(env, s.db, s.claims, h);
    if Undone(s.db, PayKey(h)) {
      es, w := JobIsRefused(env, s, h, true);
    } else {
      var v :| v in s.workers && Is(ToCancel, s.workers[v], h);
      es, w := WorkerUndoes(env, s, v, h);
    }
  }

  /** A quoted relay's HTLC is held. */
  lemma HeldAfterQuote(env: Env, s: System, h: string, deadline: Uint32)
    requires SystemInv(env, s) && StatusIn(s.db, h, {Quoted}) && deadline > 0
    ensures var s' := Exec(env, s, HtlcHeld(h, deadline));
            && SystemInv(env, s') && s'.cancels == s.cancels && s'.payments == s.payments && s'.workers == s.workers
            && h in s'.db.sends && s'.db.sends[h] == s.db.sends[h].(status := Claimable, deadline := Some(deadline))
            && PayKey(h) in s'.db.jobs && s'.db.jobs[PayKey(h)].status == JobStatus.Pending
            && s'.db.jobs[PayKey(h)].availableAt == s'.now && s'.unrecorded == s.unrecorded && s'.uncancelled == s.uncancelled
  {
    assert RecordInv(env, s.db, s.claims, h);
    StepKeeps(env, s, HtlcHeld(h, deadline));
  }

  /** A relay that is not held yet can be: quoted first, if need be, for any invoice. */
  lemma BecomesHeld(env: Env, s: System, h: string, invoice: string, deadline: Uint32) returns (es: seq<Event>)
    requires SystemInv(env, s) && !PastQuote(s.db, h) && deadline > 0
    ensures var s' := Run(env, s, es);
            && SystemInv(env, s') && s'.cancels == s.cancels && StatusIn(s'.db, h, {Claimable}) && Undone(s'.db, PayKey(h))
            && s'.db.sends[h].deadline == Some(deadline)
            && s'.db.sends[h].outboundInvoice == if h in s.db.sends then s.db.sends[h].outboundInvoice else invoice
  {
    var s1 := Exec(env, s, Quote(h, invoice));
    StepKeeps(env, s, Quote(h, invoice));
    HeldAfterQuote(env, s1, h, deadline);
    es := [Quote(h, invoice)] + [HtlcHeld(h, deadline)];
    RunFirst(env, s, Quote(h, invoice), [HtlcHeld(h, deadline)]);
    RunOne(env, s1, HtlcHeld(h, deadline));
  }

  lemma MayCancelCancels(env: Env, s: System, h: string) returns (es: seq<Event>)
    requires SystemInv(env, s) && MayCancel(s, h)
    ensures Run(env, s, es).cancels[h] == s.cancels[h] + 1
  {
    var w: nat;
    if !PastQuote(s.db, h) {
      var held := BecomesHeld(env, s, h, "", 1);
      var rest: seq<Event>;
      rest, w := CancellableUndoes(env, Run(env, s, held), h);
      es := held + rest;
      RunConcat(env, s, held, rest);
    } else if Cancellable(s, h) {
      es, w := CancellableUndoes(env, s, h);
    } else {
      w :| w in s.workers && Is(ToRefuse, s.workers[w], h);
      es := RefuserUndoes(env, s, w, h);
    }
  }

  lemma UndoIsRecorded(env: Env, s: System, w: nat, h: string)
    requires SystemInv(env, s) && StatusIn(s.db, h, HELD)
    requires w in s.workers && s.workers[w].UndoRecord? && s.workers[w].hash == h
    ensures StatusIn(Run(env, s, [Go(w, Refusal(true))]).db, h, {s.workers[w].to}) && s.workers[w].to in REFUNDED
  {
    assert WorkerInv(env, s.db, s.claims, s.workers[w]);
    RecordStep(env, s, w, Refusal(true), h, s.workers[w].to, s.workers[w].reason);
    RunOne(env, s, Go(w, Refusal(true)));
  }

  lemma HeldFails(env: Env, s: System, h: string) returns (es: seq<Event>)
    requires SystemInv(env, s) && StatusIn(s.db, h, HELD) && Unfinished(s, h, ToUndo)
    ensures StatusIn(Run(env, s, es).db, h, REFUNDED)
  {
    if Cancellable(s, h) {
      var w: nat;
      es, w := CancellableUndoes(env, s, h);
      RunKeeps(env, s, es);
      UndoIsRecorded(env, Run(env, s, es), w, h);
      RunConcat(env, s, es, [Go(w, Refusal(true))]);
      es := es + [Go(w, Refusal(true))];
    } else {
      var w :| w in s.workers && Is(ToUndo, s.workers[w], h);
      assert !Is(ToCancel, s.workers[w], h);
      UndoIsRecorded(env, s, w, h);
      es := [Go(w, Refusal(true))];
    }
  }

  lemma MayFailFails(env: Env, s: System, h: string) returns (es: seq<Event>)
    requires SystemInv(env, s) && MayFail(s, h)
    ensures StatusIn(Run(env, s, es).db, h, REFUNDED)
  {
    if StatusIn(s.db, h, REFUNDED) {
      es := [];
    } else if !PastQuote(s.db, h) {
      var held := BecomesHeld(env, s, h, "", 1);
      var rest := HeldFails(env, Run(env, s, held), h);
      es := held + rest;
      RunConcat(env, s, held, rest);
    } else {
      es := HeldFails(env, s, h);
    }
  }

  // ---------------------------------------------------------------- exactly when

  ghost predicate EndsRefunded(env: Env, s: System, es: seq<Event>, h: string) {
    StatusIn(Run(env, s, es).db, h, REFUNDED)
  }

  /** A relay can still end cancelled or failed exactly when it already is, its HTLC is not
      held yet, or it is held or pending and its pay job is unfinished or still has a worker
      other than one about to report done. Whether its payment was started does not matter. */
  lemma RelayCanFailIff(env: Env, s: System, h: string)
    requires SystemInv(env, s)
    ensures (exists es: seq<Event> :: EndsRefunded(env, s, es, h)) <==> MayFail(s, h)
  {
    if MayFail(s, h) {
      var es := MayFailFails(env, s, h);
      assert EndsRefunded(env, s, es, h);
    } else {
      forall es: seq<Event> ensures !EndsRefunded(env, s, es, h) {
        NeverFails(env, s, es, h);
      }
    }
  }

  /** Its HODL can still be cancelled exactly when the HTLC is not held yet, the relay is held
      or pending and its pay job can still come to the cancel, or, whatever became of the
      relay, a worker is about to check the gate, to send or to cancel. */
  lemma HodlCanBeCancelledIff(env: Env, s: System, h: string)
    requires SystemInv(env, s)
    ensures (exists es: seq<Event> :: Run(env, s, es).cancels[h] > s.cancels[h]) <==> MayCancel(s, h)
  {
    if MayCancel(s, h) {
      var es := MayCancelCancels(env, s, h);
      assert Run(env, s, es).cancels[h] > s.cancels[h];
    } else {
      forall es: seq<Event> ensures Run(env, s, es).cancels[h] == s.cancels[h] {
        NeverCancels(env, s, es, h);
      }
    }
  }

  /** For a relay already refunded only such a worker is left to do it. */
  lemma RefundedHodlIff(env: Env, s: System, h: string)
    requires SystemInv(env, s) && StatusIn(s.db, h, REFUNDED)
    ensures (exists es: seq<Event> :: Run(env, s, es).cancels[h] > s.cancels[h]) <==> Someone(s, h, ToRefuse)
  {
    HodlCanBeCancelledIff(env, s, h);
  }

  // ---------------------------------------------------------------- starting a payment

  /** Any quoted relay whose HTLC is held, and any free worker: under an open gate the worker
      gets to taking the payment. */
  lemma TakeIsReachable(env: Env, s: System, h: string, w: nat, deadline: Uint32, a: Answer) returns (es: seq<Event>)
    requires SystemInv(env, s) && StatusIn(s.db, h, {Quoted}) && w !in s.workers && deadline > 0 && a.store.load
    requires CheckGate(env, s.db.sends[h].(status := Claimable, deadline := Some(deadline)), a).Some?
    ensures var s' := Run(env, s, es);
            && w in s'.workers && s'.workers[w].PayTake? && s'.workers[w].hash == h && StatusIn(s'.db, h, {Claimable})
            && s'.payments == s.payments && s'.cancels == s.cancels
  {
    var s1 := Exec(env, s, HtlcHeld(h, deadline));
    HeldAfterQuote(env, s, h, deadline);
    var s2 := Exec(env, s1, TakeJob(w, PayKey(h)));
    assert Eligible(s1.db.jobs[PayKey(h)], s1.now);
    assert At(s2, w, PayLoad(h)) && s2.db.sends == s1.db.sends;
    var rest, gate := LoadedIsTaken(env, s2, w, h, a);
    es := [HtlcHeld(h, deadline)] + ([TakeJob(w, PayKey(h))] + rest);
    RunFirst(env, s, HtlcHeld(h, deadline), [TakeJob(w, PayKey(h))] + rest);
    RunFirst(env, s1, TakeJob(w, PayKey(h)), rest);
  }

  lemma WorkerPays(env: Env, s: System, v: nat, h: string) returns (es: seq<Event>)
    requires SystemInv(env, s) && StatusIn(s.db, h, {Claimable}) && v in s.workers && Is(ToPay, s.workers[v], h)
    requires CheckGate(env, s.db.sends[h], EARLIEST).Some?
    ensures Paid(Run(env, s, es), h)
  {
    assert WorkerInv(env, s.db, s.claims, s.workers[v]);
    match s.workers[v]
    case PayLoad(_) => es := LoadedIsPaid(env, s, v, h);
    case PayGate(_, row) =>
      var take, gate := GateIsTaken(env, s, v, h, row, EARLIEST);
      var send := TakenIsSent(env, Run(env, s, take), v, h, gate, EARLIEST);
      es := take + send;
      RunConcat(env, s, take, send);
    case PayTake(_, gate) => es := TakenIsSent(env, s, v, h, gate, EARLIEST);
    case _ =>
      var reopen := WorkerReopensJob(env, s, v, h);
      var rest := HeldIsPaid(env, Run(env, s, reopen), h);
      es := reopen + rest;
      RunConcat(env, s, reopen, rest);
  }

  lemma ClaimableIsPaid(env: Env, s: System, h: string) returns (es: seq<Event>)
    requires SystemInv(env, s) && StatusIn(s.db, h, {Claimable}) && Payable(env, s, h)
    ensures Paid(Run(env, s, es), h)
  {
    assert RecordInv(env, s.db, s.claims, h);
    GateCanOpenIff(env, s.db.sends[h]);
    if Undone(s.db, PayKey(h)) {
      es := HeldIsPaid(env, s, h);
    } else {
      var v :| v in s.workers && Is(ToPay, s.workers[v], h);
      es := WorkerPays(env, s, v, h);
    }
  }

  lemma MayPayPays(env: Env, s: System, h: string) returns (es: seq<Event>)
    requires SystemInv(env, s) && MayPay(env, s, h)
    ensures Paid(Run(env, s, es), h)
  {
    if Sending(s, h) {
      var w :| w in s.workers && s.workers[w].PaySend? && s.workers[w].hash == h;
      SendStep(env, s, w, OUTAGE, h, s.workers[w].gate);
      es := [Go(w, OUTAGE)];
      RunOne(env, s, Go(w, OUTAGE));
    } else if StatusIn(s.db, h, {Claimable}) {
      es := ClaimableIsPaid(env, s, h);
    } else {
      var invoice: string;
      if h in s.db.sends {
        invoice := s.db.sends[h].outboundInvoice;
      } else {
        invoice :| Required(env, invoice) < MAX_DEADLINE;
      }
      var held := BecomesHeld(env, s, h, invoice, MAX_DEADLINE);
      var rest := ClaimableIsPaid(env, Run(env, s, held), h);
      es := held + rest;
      RunConcat(env, s, held, rest);
    }
  }

  /** Only a worker that takes the leg becomes a sender, and only a sender starts a payment. */
  lemma SendersAndPayments(env: Env, s: System, e: Event, h: string)
    requires SystemInv(env, s)
    ensures var s' := Exec(env, s, e);
            && (Sending(s', h) ==> Sending(s, h) || Payable(env, s, h))
            && (Paid(s', h) ==> Paid(s, h) || Sending(s, h))
  {
    var s' := Exec(env, s, e);
    if e.Go? && e.worker in s.workers && !s.workers[e.worker].Report? {
      var pc := s.workers[e.worker];
      assert WorkerInv(env, s.db, s.claims, pc) && RecordInv(env, s.db, s.claims, pc.hash);
      StepLegal(env, s, pc, e.answer);
      MovingSends(env, s, e.worker, WorkerStep(env, s.db, s.now, pc, e.answer), h);
      if pc.hash == h && Takes(s.db, pc) {
        TakerCanPay(env, s, e.worker, h);
      }
    } else {
      assert s'.payments == s.payments;
    }
  }

  /** The gate of a worker about to take was open, so it can open. */
  lemma TakerCanPay(env: Env, s: System, w: nat, h: string)
    requires SystemInv(env, s) && w in s.workers && s.workers[w].hash == h && Takes(s.db, s.workers[w])
    ensures Payable(env, s, h)
  {
    var g := s.workers[w].gate;
    assert WorkerInv(env, s.db, s.claims, s.workers[w]) && Is(ToPay, s.workers[w], h);
    GateMeans(g.deadline, g.height, RelayRequired(env.margin, g.finalDelta));
  }

  lemma MovingSends(env: Env, s: System, w: nat, m: Moved, h: string)
    requires w in s.workers && Legal(env, s, s.workers[w], m)
    ensures var s' := Moving(s, w, m);
            && (Sending(s', h) ==> Sending(s, h) || (s.workers[w].hash == h && Takes(s.db, s.workers[w])))
            && (Paid(s', h) ==> Paid(s, h) || Sending(s, h))
  {}

  lemma StepPayable(env: Env, s: System, e: Event, h: string)
    requires SystemInv(env, s)
    ensures Payable(env, Exec(env, s, e), h) ==> Payable(env, s, h)
  {
    StepForward(env, s, e);
    if PastQuote(s.db, h) {
      StepUnfinished(env, s, e, h, ToPay);
    } else {
      FirstSteps(env, s, e, h);
    }
  }

  /** A relay that is not held yet stays as it is, is quoted, or is held with some deadline. */
  lemma FirstSteps(env: Env, s: System, e: Event, h: string)
    requires SystemInv(env, s) && !PastQuote(s.db, h)
    ensures var db' := Exec(env, s, e).db;
            || (h !in s.db.sends && h !in db'.sends)
            || (h in db'.sends && db'.sends[h].status == Quoted && (h in s.db.sends ==> db'.sends[h] == s.db.sends[h]))
            || (h in s.db.sends && h in db'.sends && db'.sends[h].outboundInvoice == s.db.sends[h].outboundInvoice)
  {
    if e.Go? && e.worker in s.workers && !s.workers[e.worker].Report? {
      var pc := s.workers[e.worker];
      assert WorkerInv(env, s.db, s.claims, pc) && RecordInv(env, s.db, s.claims, pc.hash);
      StepLegal(env, s, pc, e.answer);
      assert pc.hash != h by {
        assert RecordInv(env, s.db, s.claims, h);
      }
    }
  }

  lemma {:induction false} NeverPaid(env: Env, s: System, es: seq<Event>, h: string)
    requires SystemInv(env, s) && !Paid(s, h) && !MayPay(env, s, h)
    ensures !Paid(Run(env, s, es), h)
    decreases |es|
  {
    if es != [] {
      SendersAndPayments(env, s, es[0], h);
      StepPayable(env, s, es[0], h);
      StepKeeps(env, s, es[0]);
      NeverPaid(env, Exec(env, s, es[0]), es[1..], h);
    }
  }

  ghost predicate GetsPaid(env: Env, s: System, es: seq<Event>, h: string) {
    Paid(Run(env, s, es), h)
  }

  /** A payment that was not started yet can still be started exactly when a worker is about
      to send it, or its leg is not taken and the blocks demanded for its invoice fit: under
      some deadline while the HTLC is not held, under the recorded one afterwards, and then
      only while its pay job is unfinished or a worker can still pay or start it over.
      Whether the HODL was cancelled does not matter. */
  lemma PaymentCanStartIff(env: Env, s: System, h: string)
    requires SystemInv(env, s) && !Paid(s, h)
    ensures (exists es: seq<Event> :: GetsPaid(env, s, es, h)) <==> MayPay(env, s, h)
  {
    if MayPay(env, s, h) {
      var es := MayPayPays(env, s, h);
      assert GetsPaid(env, s, es, h);
    } else {
      forall es: seq<Event> ensures !GetsPaid(env, s, es, h) {
        NeverPaid(env, s, es, h);
      }
    }
  }

  // ---------------------------------------------------------------- cancels over all runs

  /** A worker at the cancel leaves the HODL cancelled exactly when the call takes effect; it
      goes on to record the undo in any case. */
  lemma CancelTakesEffectIff(env: Env, s: System, w: nat, a: Answer, h: string, to: SendState, reason: string)
    requires At(s, w, UndoCancel(h, to, reason))
    ensures var s' := Exec(env, s, Go(w, a));
            && (s'.cancels[h] > s.cancels[h] <==> a.cancelled) && (!a.cancelled ==> s'.cancels == s.cancels && h in s'.uncancelled)
            && s'.db == s.db && At(s', w, UndoRecord(h, to, reason))
  {
    CancelStep(env, s, w, a, h, to, reason);
  }

  /** A worker that has called the cancel leaves the relay refunded exactly when it finds it
      refunded already, or no further than pending with a store that takes the record;
      otherwise it leaves the relay as it is. It reports done in any case. */
  lemma UndoRecordsIff(env: Env, s: System, w: nat, a: Answer, h: string, to: SendState, reason: string)
    requires At(s, w, UndoRecord(h, to, reason)) && to in REFUNDED
    ensures var s' := Exec(env, s, Go(w, a));
            && (StatusIn(s'.db, h, REFUNDED) <==> StatusIn(s.db, h, REFUNDED) || (StatusIn(s.db, h, UNDOABLE) && a.store.record))
            && (StatusIn(s'.db, h, REFUNDED) || s'.db == s.db) && At(s', w, PayDone(h, true))
            && s'.cancels == s.cancels && s'.payments == s.payments
  {}

  /** The cancel was called, and it took effect or it did not. */
  predicate Called(s: System, h: string) {
    h in s.cancels || h in s.uncancelled
  }

  ghost predicate UndosCalled(s: System) {
    && (forall h :: StatusIn(s.db, h, REFUNDED) || h in s.unrecorded ==> Called(s, h))
    && (forall w :: w in s.workers && s.workers[w].UndoRecord? ==> Called(s, s.workers[w].hash))
  }

  lemma WorkerRefund(env: Env, s: System, pc: Pc, a: Answer)
    requires !pc.Report? && WorkerInv(env, s.db, s.claims, pc)
    ensures var m := WorkerStep(env, s.db, s.now, pc, a);
            && (m.next.UndoRecord? ==> m.next.hash == pc.hash && (pc.hash in m.cancels || pc.hash in m.uncancelled))
            && (StatusIn(m.db, pc.hash, REFUNDED) && !StatusIn(s.db, pc.hash, REFUNDED) ==> pc.UndoRecord?)
            && (m.unrecorded == {} || (pc.UndoRecord? && m.unrecorded == {pc.hash}))
  {}

  lemma MovingRefund(env: Env, s: System, w: nat, m: Moved)
    requires UndosCalled(s) && w in s.workers && Legal(env, s, s.workers[w], m)
    requires m.next.UndoRecord? ==> m.next.hash in m.cancels || m.next.hash in m.uncancelled
    requires StatusIn(m.db, s.workers[w].hash, REFUNDED) && !StatusIn(s.db, s.workers[w].hash, REFUNDED) ==>
               s.workers[w].UndoRecord?
    requires m.unrecorded == {} || (s.workers[w].UndoRecord? && m.unrecorded == {s.workers[w].hash})
    ensures UndosCalled(Moving(s, w, m))
  {
    var s' := Moving(s, w, m);
    assert forall h :: Called(s, h) ==> Called(s', h);
    forall h | StatusIn(m.db, h, REFUNDED) || h in s'.unrecorded ensures Called(s', h) {
      if h != s.workers[w].hash {
        assert StatusIn(s.db, h, REFUNDED) || h in s.unrecorded;
      }
    }
  }

  lemma QuietRefund(env: Env, s: System, e: Event)
    requires UndosCalled(s) && !(e.Go? && e.worker in s.workers && !s.workers[e.worker].Report?)
    ensures UndosCalled(Exec(env, s, e))
  {
    var s' := Exec(env, s, e);
    assert forall h :: Called(s', h) <==> Called(s, h);
    assert forall h :: StatusIn(s'.db, h, REFUNDED) ==> StatusIn(s.db, h, REFUNDED);
  }

  lemma StepRefund(env: Env, s: System, e: Event)
    requires SystemInv(env, s) && UndosCalled(s)
    ensures UndosCalled(Exec(env, s, e))
  {
    if e.Go? && e.worker in s.workers && !s.workers[e.worker].Report? {
      var pc := s.workers[e.worker];
      assert WorkerInv(env, s.db, s.claims, pc) && RecordInv(env, s.db, s.claims, pc.hash);
      StepLegal(env, s, pc, e.answer);
      WorkerRefund(env, s, pc, e.answer);
      MovingRefund(env, s, e.worker, WorkerStep(env, s.db, s.now, pc, e.answer));
    } else {
      QuietRefund(env, s, e);
    }
  }

  lemma {:induction false} RunRefund(env: Env, s: System, es: seq<Event>)
    requires SystemInv(env, s) && UndosCalled(s)
    ensures UndosCalled(Run(env, s, es))
    decreases |es|
  {
    if es != [] {
      StepRefund(env, s, es[0]);
      StepKeeps(env, s, es[0]);
      RunRefund(env, Exec(env, s, es[0]), es[1..]);
    }
  }

  /** In every run the cancel was called for a cancelled or failed relay, and unless such a
      call for it came to nothing, its HODL was cancelled. */
  lemma RefundedMeansCancelCalled(env: Env, es: seq<Event>, h: string)
    requires var s := Run(env, IDLE, es); StatusIn(s.db, h, REFUNDED) || h in s.unrecorded
    ensures h in Run(env, IDLE, es).cancels || h in Run(env, IDLE, es).uncancelled
  {
    IdleInv(env);
    RunRefund(env, IDLE, es);
    assert Called(Run(env, IDLE, es), h);
  }
}
