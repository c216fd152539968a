/** The relay's webhook marks and job bodies as they run when nothing interferes: each is
    shown to do exactly what the transition system's worker does step by step. */
module RelayJobs {
  import opened Wrappers
  import opened DeadlinePolicy
  import opened RelayStore
  import opened Relay
  import Outbox

  datatype Outcome = Outcome(db: Db, payments: seq<Payment>, claims: set<Claim>, cancels: multiset<string>,
                             uncancelled: set<string>, unrecorded: set<string>, ok: bool)

  function Nothing(db: Db, ok: bool): Outcome { Outcome(db, [], {}, multiset{}, {}, {}, ok) }

  /** A bound on the steps left. */
  function StepsLeft(pc: Pc): nat {
    match pc
    case PayLoad(_) => 6
    case PayGate(_, _) => 5
    case PayTake(_, _) => 4
    case PayRecheck(_) => 1
    case PaySend(_, _) => 3
    case PayRecord(_) => 1
    case UndoCancel(_, _, _) => 2
    case UndoRecord(_, _, _) => 1
    case ClaimLoad(_) => 3
    case ClaimCall(_, _) => 2
    case ClaimRecord(_) => 1
    case Report(_, _, _) => 0
  }

  lemma NextIsCloser(env: Env, db: Db, now: int, pc: Pc, a: Answer)
    requires !pc.Report?
    ensures StepsLeft(WorkerStep(env, db, now, pc, a).next) < StepsLeft(pc)
  {}

  /** What a worker does from here to its report, undisturbed. */
  function Finish(env: Env, db: Db, now: int, pc: Pc, a: Answer): Outcome
    decreases StepsLeft(pc)
  {
    if pc.Report? then Nothing(db, pc.ok)
    else
      NextIsCloser(env, db, now, pc, a);
      var m := WorkerStep(env, db, now, pc, a);
      Then(m, Finish(env, m.db, now, m.next, a))
  }

  function Then(m: Moved, rest: Outcome): Outcome {
    Outcome(rest.db, m.payments + rest.payments, m.claims + rest.claims, m.cancels + rest.cancels,
            m.uncancelled + rest.uncancelled, m.unrecorded + rest.unrecorded, rest.ok)
  }

  function Gos(w: nat, a: Answer, n: nat): (es: seq<Event>)
    ensures |es| == n
  {
    if n == 0 then [] else [Go(w, a)] + Gos(w, a, n - 1)
  }

  /** State `s2` is where worker `w` of `s` reports what `o` says it does. */
  predicate Reports(s: System, s2: System, w: nat, o: Outcome) {
    && s2.db == o.db && s2.payments == s.payments + o.payments && s2.claims == s.claims + o.claims
    && s2.cancels == s.cancels + o.cancels && s2.now == s.now
    && s2.uncancelled == s.uncancelled + o.uncancelled && s2.unrecorded == s.unrecorded + o.unrecorded
    && w in s2.workers && s2.workers[w].Report? && s2.workers[w].ok == o.ok
  }

  lemma ReportsThen(s: System, s2: System, w: nat, m: Moved, rest: Outcome)
    requires Reports(Moving(s, w, m), s2, w, rest)
    ensures Reports(s, s2, w, Then(m, rest))
  {
    assert (s.payments + m.payments) + rest.payments == s.payments + (m.payments + rest.payments);
    assert (s.claims + m.claims) + rest.claims == s.claims + (m.claims + rest.claims);
    assert (s.cancels + m.cancels) + rest.cancels == s.cancels + (m.cancels + rest.cancels);
    assert (s.uncancelled + m.uncancelled) + rest.uncancelled == s.uncancelled + (m.uncancelled + rest.uncancelled);
    assert (s.unrecorded + m.unrecorded) + rest.unrecorded == s.unrecorded + (m.unrecorded + rest.unrecorded);
  }

  lemma GosStep(env: Env, s: System, w: nat, a: Answer, n: nat)
    ensures Run(env, s, Gos(w, a, n + 1)) == Run(env, Exec(env, s, Go(w, a)), Gos(w, a, n))
  {
    assert Gos(w, a, n + 1)[0] == Go(w, a) && Gos(w, a, n + 1)[1..] == Gos(w, a, n);
  }

  /** One step of a worker, as the run and as the job body see it. */
  lemma OneStep(env: Env, s: System, w: nat, a: Answer) returns (m: Moved)
    requires w in s.workers && !s.workers[w].Report?
    ensures StepsLeft(m.next) < StepsLeft(s.workers[w])
    ensures Finish(env, s.db, s.now, s.workers[w], a) == Then(m, Finish(env, m.db, s.now, m.next, a))
    ensures forall n: nat :: Run(env, s, Gos(w, a, n + 1)) == Run(env, Moving(s, w, m), Gos(w, a, n))
  {
    m := WorkerStep(env, s.db, s.now, s.workers[w], a);
    NextIsCloser(env, s.db, s.now, s.workers[w], a);
    forall n: nat ensures Run(env, s, Gos(w, a, n + 1)) == Run(env, Moving(s, w, m), Gos(w, a, n)) {
      GosStep(env, s, w, a, n);
    }
  }

  lemma ReportsAtOnce(env: Env, s: System, w: nat, a: Answer)
    requires w in s.workers && s.workers[w].Report?
    ensures Reports(s, Run(env, s, Gos(w, a, 0)), w, Finish(env, s.db, s.now, s.workers[w], a))
  {
    assert s.payments + [] == s.payments && s.claims + {} == s.claims && s.cancels + multiset{} == s.cancels;
    assert s.uncancelled + {} == s.uncancelled && s.unrecorded + {} == s.unrecorded;
  }

  /** A job body run to its end is one of the interleavings: the worker goes on alone until
      it has something to report. */
  lemma {:induction false} FinishIsARun(env: Env, s: System, w: nat, a: Answer) returns (n: nat)
    requires w in s.workers
    ensures Reports(s, Run(env, s, Gos(w, a, n)), w, Finish(env, s.db, s.now, s.workers[w], a))
    decreases StepsLeft(s.workers[w])
  {
    if s.workers[w].Report? {
      n := 0;
      ReportsAtOnce(env, s, w, a);
    } else {
      var m := OneStep(env, s, w, a);
      var rest := FinishIsARun(env, Moving(s, w, m), w, a);
      n := rest + 1;
      ReportsThen(s, Run(env, s, Gos(w, a, n)), w, m, Finish(env, m.db, s.now, m.next, a));
    }
  }

  // ---------------------------------------------------------------- what each stretch comes to

  lemma QuietStep(env: Env, db: Db, now: int, pc: Pc, a: Answer, db': Db, next: Pc)
    requires !pc.Report? && WorkerStep(env, db, now, pc, a) == Just(db', next)
    ensures Finish(env, db, now, pc, a) == Finish(env, db', now, next, a)
  {
    ThenNothing(Just(db', next), Finish(env, db', now, next, a));
  }

  lemma ThenNothing(m: Moved, rest: Outcome)
    requires m == Just(m.db, m.next)
    ensures Then(m, rest) == rest
  {
    assert [] + rest.payments == rest.payments && {} + rest.claims == rest.claims && multiset{} + rest.cancels == rest.cancels;
    assert {} + rest.uncancelled == rest.uncancelled && {} + rest.unrecorded == rest.unrecorded;
  }

  lemma Reported(env: Env, db: Db, now: int, pc: Pc, a: Answer)
    requires pc.Report?
    ensures Finish(env, db, now, pc, a) == Nothing(db, pc.ok)
  {}

  /** An undo: what the cancel came to, and the closed record unless the store fails. */
  function UndoResult(db: Db, now: int, h: string, to: SendState, reason: string, a: Answer): Outcome {
    var db' := Advance(db, h, UNDOABLE, to, Update(None, None, Some(reason), None), now);
    Outcome(if a.store.record then db' else db, [], {}, if a.cancelled then multiset{h} else multiset{},
            if a.cancelled then {} else {h}, if a.store.record then {} else {h}, true)
  }

  lemma RecordingOutcome(env: Env, db: Db, now: int, h: string, to: SendState, reason: string, a: Answer)
    ensures Finish(env, db, now, UndoRecord(h, to, reason), a)
            == UndoResult(db, now, h, to, reason, a).(cancels := multiset{}, uncancelled := {})
  {
    var m := WorkerStep(env, db, now, UndoRecord(h, to, reason), a);
    Reported(env, m.db, now, PayDone(h, true), a);
  }

  lemma UndoOutcome(env: Env, db: Db, now: int, h: string, to: SendState, reason: string, a: Answer)
    ensures Finish(env, db, now, UndoCancel(h, to, reason), a) == UndoResult(db, now, h, to, reason, a)
  {
    RecordingOutcome(env, db, now, h, to, reason, a);
    var m, rest := WorkerStep(env, db, now, UndoCancel(h, to, reason), a), Finish(env, db, now, UndoRecord(h, to, reason), a);
    assert m.unrecorded + rest.unrecorded == rest.unrecorded;
  }

  function SendOutcome(db: Db, now: int, h: string, a: Answer): Outcome {
    match a.send
    case TransportError => Nothing(db, false)
    case ReportedFailed => UndoResult(db, now, h, Cancelled, "failed", a)
    case Initiated => Recorded(db, now, h, OutboundPending, OutboundPaid, a)
  }

  /** A closing compare-and-set: a store failure is a retry. */
  function Recorded(db: Db, now: int, h: string, from: SendState, to: SendState, a: Answer): Outcome {
    if a.store.record then Nothing(Advance(db, h, {from}, to, NO_UPDATE, now), true) else Nothing(db, false)
  }

  lemma RecordOutcome(env: Env, db: Db, now: int, h: string, a: Answer)
    ensures Finish(env, db, now, PayRecord(h), a) == Recorded(db, now, h, OutboundPending, OutboundPaid, a)
  {
    var o := Recorded(db, now, h, OutboundPending, OutboundPaid, a);
    QuietStep(env, db, now, PayRecord(h), a, o.db, PayDone(h, o.ok));
    Reported(env, o.db, now, PayDone(h, o.ok), a);
  }

  function AfterSend(h: string, a: Answer): Pc {
    match a.send
    case Initiated => PayRecord(h)
    case ReportedFailed => UndoCancel(h, Cancelled, "failed")
    case TransportError => PayDone(h, false)
  }

  lemma ThenPayment(m: Moved, rest: Outcome)
    requires m == Just(m.db, m.next).(payments := m.payments)
    ensures Then(m, rest) == rest.(payments := m.payments + rest.payments)
  {
    assert {} + rest.claims == rest.claims && multiset{} + rest.cancels == rest.cancels;
    assert {} + rest.uncancelled == rest.uncancelled && {} + rest.unrecorded == rest.unrecorded;
  }

  lemma SendStep(env: Env, db: Db, now: int, h: string, gate: Gate, a: Answer)
    ensures var rest := Finish(env, db, now, AfterSend(h, a), a);
            Finish(env, db, now, PaySend(h, gate), a) == rest.(payments := [Payment(h, gate)] + rest.payments)
  {
    ThenPayment(Just(db, AfterSend(h, a)).(payments := [Payment(h, gate)]), Finish(env, db, now, AfterSend(h, a), a));
  }

  lemma SendingOutcome(env: Env, db: Db, now: int, h: string, gate: Gate, a: Answer)
    ensures Finish(env, db, now, PaySend(h, gate), a) == SendOutcome(db, now, h, a).(payments := [Payment(h, gate)])
  {
    SendStep(env, db, now, h, gate, a);
    match a.send
    case TransportError => Reported(env, db, now, PayDone(h, false), a);
    case ReportedFailed => UndoOutcome(env, db, now, h, Cancelled, "failed", a);
    case Initiated => RecordOutcome(env, db, now, h, a);
  }

  lemma TakingOutcome(env: Env, db: Db, now: int, h: string, gate: Gate, a: Answer)
    ensures Finish(env, db, now, PayTake(h, gate), a)
            == if !a.store.take then Nothing(db, false)
               else if CanAdvance(db, h, {Claimable})
               then Finish(env, Advance(db, h, {Claimable}, OutboundPending, NO_UPDATE, now), now, PaySend(h, gate), a)
               else Nothing(db, a.store.reload && PastTaking(db, h))
  {
    if !a.store.take {
      QuietStep(env, db, now, PayTake(h, gate), a, db, PayDone(h, false));
      Reported(env, db, now, PayDone(h, false), a);
    } else if CanAdvance(db, h, {Claimable}) {
      QuietStep(env, db, now, PayTake(h, gate), a, Advance(db, h, {Claimable}, OutboundPending, NO_UPDATE, now), PaySend(h, gate));
    } else {
      var ok := a.store.reload && PastTaking(db, h);
      QuietStep(env, db, now, PayTake(h, gate), a, db, PayRecheck(h));
      QuietStep(env, db, now, PayRecheck(h), a, db, PayDone(h, ok));
      Reported(env, db, now, PayDone(h, ok), a);
    }
  }

  predicate PastTaking(db: Db, h: string) {
    h in db.sends && db.sends[h].status.AtOrBeyond(OutboundPending)
  }

  /** The record is there and still needs its delivery leg paid. */
  predicate Payable(db: Db, h: string) {
    h in db.sends && !db.sends[h].status.AtOrBeyond(OutboundPaid) && !db.sends[h].status.Terminal()
  }

  lemma LoadingStops(env: Env, db: Db, now: int, h: string, a: Answer)
    requires !a.store.load || !Payable(db, h)
    ensures Finish(env, db, now, PayLoad(h), a) == Nothing(db, a.store.load && h in db.sends)
  {
    var ok := a.store.load && h in db.sends;
    QuietStep(env, db, now, PayLoad(h), a, db, PayDone(h, ok));
    Reported(env, db, now, PayDone(h, ok), a);
  }

  function AfterGate(env: Env, h: string, row: SendRow, a: Answer): Pc {
    match CheckGate(env, row, a)
    case Some(gate) => PayTake(h, gate)
    case None => UndoCancel(h, Failed, "refused")
  }

  lemma LoadingGoesOn(env: Env, db: Db, now: int, h: string, a: Answer)
    requires a.store.load && Payable(db, h)
    ensures Finish(env, db, now, PayLoad(h), a) == Finish(env, db, now, AfterGate(env, h, db.sends[h], a), a)
  {
    QuietStep(env, db, now, PayLoad(h), a, db, PayGate(h, db.sends[h]));
    QuietStep(env, db, now, PayGate(h, db.sends[h]), a, db, AfterGate(env, h, db.sends[h], a));
  }

  /** The record is there and its preimage can be collected with. */
  predicate Collectable(db: Db, h: string) {
    h in db.sends && db.sends[h].status == OutboundClaimed && db.sends[h].preimage.Some?
  }

  lemma CallingOutcome(env: Env, db: Db, now: int, h: string, p: string, a: Answer)
    ensures Finish(env, db, now, ClaimCall(h, p), a)
            == if a.claimed then Recorded(db, now, h, OutboundClaimed, Settled, a).(claims := {Claim(h, p)}) else Nothing(db, false)
  {
    var o := Recorded(db, now, h, OutboundClaimed, Settled, a);
    QuietStep(env, db, now, ClaimRecord(h), a, o.db, ClaimDone(h, o.ok));
    Reported(env, o.db, now, ClaimDone(h, o.ok), a);
    Reported(env, db, now, ClaimDone(h, false), a);
  }

  lemma ClaimingOutcome(env: Env, db: Db, now: int, h: string, a: Answer)
    ensures Finish(env, db, now, ClaimLoad(h), a)
            == if !a.store.load || h !in db.sends then Nothing(db, false)
               else if db.sends[h].status.AtOrBeyond(Settled) then Nothing(db, true)
               else if !Collectable(db, h) || !a.claimed then Nothing(db, false)
               else Recorded(db, now, h, OutboundClaimed, Settled, a).(claims := {Claim(h, db.sends[h].preimage.value)})
  {
    if !a.store.load || !Collectable(db, h) {
      var ok := a.store.load && h in db.sends && db.sends[h].status.AtOrBeyond(Settled);
      QuietStep(env, db, now, ClaimLoad(h), a, db, ClaimDone(h, ok));
      Reported(env, db, now, ClaimDone(h, ok), a);
    } else {
      var p := db.sends[h].preimage.value;
      QuietStep(env, db, now, ClaimLoad(h), a, db, ClaimCall(h, p));
      CallingOutcome(env, db, now, h, p, a);
    }
  }

  datatype MarkError = NoDeadline | NoRecord | WrongPreimage | TooEarly

  /** What a service has done so far, besides its records. */
  datatype Calls = Calls(payments: seq<Payment>, claims: set<Claim>, cancels: multiset<string>,
                         uncancelled: set<string>, unrecorded: set<string>)

  function After(calls: Calls, o: Outcome): Calls {
    Calls(calls.payments + o.payments, calls.claims + o.claims, calls.cancels + o.cancels,
          calls.uncancelled + o.uncancelled, calls.unrecorded + o.unrecorded)
  }

  lemma AfterNothing(calls: Calls, db: Db, ok: bool)
    ensures After(calls, Nothing(db, ok)) == calls
  {
    assert calls.payments + [] == calls.payments && calls.claims + {} == calls.claims;
    assert calls.cancels + multiset{} == calls.cancels;
    assert calls.uncancelled + {} == calls.uncancelled && calls.unrecorded + {} == calls.unrecorded;
  }

  lemma AfterUndo(calls: Calls, db: Db, now: int, h: string, to: SendState, reason: string, a: Answer)
    ensures After(calls, UndoResult(db, now, h, to, reason, a))
            == calls.(cancels := if a.cancelled then calls.cancels + multiset{h} else calls.cancels,
                      uncancelled := if a.cancelled then calls.uncancelled else calls.uncancelled + {h},
                      unrecorded := if a.store.record then calls.unrecorded else calls.unrecorded + {h})
  {
    AfterNothing(calls, db, true);
  }

  lemma AfterPayment(calls: Calls, p: Payment, o: Outcome)
    requires o.payments == []
    ensures After(calls, o.(payments := [p])) == After(calls.(payments := calls.payments + [p]), o)
  {
    assert calls.payments + [p] == (calls.payments + [p]) + [];
  }

  lemma AfterClaim(calls: Calls, c: Claim, db: Db, ok: bool)
    ensures After(calls, Nothing(db, ok).(claims := {c})) == calls.(claims := calls.claims + {c})
  {
    AfterNothing(calls, db, ok);
  }

  class RelayService {
    const store: SendStore
    const env: Env
    var calls: Calls

    constructor (store: SendStore, env: Env)
      ensures this.store == store && this.env == env && calls == Calls([], {}, multiset{}, {}, {})
    {
      this.store, this.env := store, env;
      calls := Calls([], {}, multiset{}, {}, {});
    }

    /** Answers the node: without a deadline or a record there is nothing to hold; anything
        else, a replay included, is fine. */
    method MarkLightningSendClaimable(hash: string, deadline: Uint32, now: int) returns (r: Result<(), MarkError>)
      modifies store
      ensures store.Value() == MarkClaimable(old(store.Value()), hash, deadline, now)
      ensures r == if deadline == 0 then Err(NoDeadline) else if hash !in old(store.sends) then Err(NoRecord) else Ok(())
      ensures r.Ok? ==> hash in store.sends && store.sends[hash].status.AtOrBeyond(Claimable)
    {
      if deadline == 0 {
        return Err(NoDeadline);
      }
      var rec := store.LoadLightningSend(hash, true);
      if rec.Err? {
        return Err(NoRecord);
      }
      if rec.value.status.AtOrBeyond(Claimable) {
        return Ok(());
      }
      ToSet1(Quoted);
      var _ := store.AdvanceLightningSend(hash, [Quoted], Claimable,
                                          Update(Some(deadline), None, None, Some(Outbox.RelayPayOutbound)), now, true);
      return Ok(());
    }

    /** Answers the node: a preimage of another hash, an unknown relay and one that has not
        started its payment are errors; everything later is fine, a refunded relay included. */
    method MarkLightningSendPreimage(hash: string, preimage: string, now: int) returns (r: Result<(), MarkError>)
      modifies store
      ensures store.Value() == MarkPreimage(env, old(store.Value()), hash, preimage, now)
      ensures r == if env.sha(preimage) != hash then Err(WrongPreimage)
                   else if hash !in old(store.sends) then Err(NoRecord)
                   else if old(store.sends)[hash].status in {Quoted, Claimable} then Err(TooEarly) else Ok(())
      ensures r.Ok? ==> hash in store.sends && store.sends[hash].status.AtOrBeyond(OutboundClaimed)
    {
      if env.sha(preimage) != hash {
        return Err(WrongPreimage);
      }
      assert (set x | x in [OutboundPending, OutboundPaid]) == {OutboundPending, OutboundPaid};
      var changed := store.AdvanceLightningSend(hash, [OutboundPending, OutboundPaid], OutboundClaimed,
                                                Update(None, Some(preimage), None, Some(Outbox.RelayClaimInbound)), now, true);
      if changed.value {
        return Ok(());
      }
      var current := store.LoadLightningSend(hash, true);
      if current.Err? {
        return Err(NoRecord);
      }
      if current.value.status.AtOrBeyond(OutboundClaimed) {
        return Ok(());
      }
      return Err(TooEarly);
    }

    /** Cancels the HODL and closes the record, if it is still open. Neither failure stops the
        other, and neither is reported. */
    method UndoLightningSend(hash: string, to: SendState, reason: string, now: int, a: Answer)
      modifies store, this`calls
      ensures var o := Finish(env, old(store.Value()), now, UndoCancel(hash, to, reason), a);
              o.ok && store.Value() == o.db && calls == After(old(calls), o)
      ensures if a.cancelled then calls.cancels == old(calls.cancels) + multiset{hash}
              else hash in calls.uncancelled && calls.cancels == old(calls.cancels)
      ensures if !a.store.record then hash in calls.unrecorded && store.Value() == old(store.Value())
              else hash in old(store.sends) && old(store.sends)[hash].status in UNDOABLE ==>
                     hash in store.sends && store.sends[hash].status == to
    {
      UndoOutcome(env, store.Value(), now, hash, to, reason, a);
      AfterUndo(calls, store.Value(), now, hash, to, reason, a);
      if a.cancelled {
        calls := calls.(cancels := calls.cancels + multiset{hash});
      } else {
        calls := calls.(uncancelled := calls.uncancelled + {hash});
      }
      ToUndoable();
      var closed := store.AdvanceLightningSend(hash, [Quoted, Claimable, OutboundPending], to,
                                               Update(None, None, Some(reason), None), now, a.store.record);
      if closed.Err? {
        calls := calls.(unrecorded := calls.unrecorded + {hash});
      }
    }

    /** From taking the payment to its record. */
    method TakeAndSend(hash: string, gate: Gate, now: int, a: Answer) returns (ok: bool)
      modifies store, this`calls
      ensures var o := Finish(env, old(store.Value()), now, PayTake(hash, gate), a);
              ok == o.ok && store.Value() == o.db && calls == After(old(calls), o)
    {
      TakingOutcome(env, store.Value(), now, hash, gate, a);
      ToSet1(Claimable);
      var taken := store.AdvanceLightningSend(hash, [Claimable], OutboundPending, NO_UPDATE, now, a.store.take);
      if taken.Err? {
        AfterNothing(calls, store.Value(), false);
        return false;
      }
      if !taken.value {
        var current := store.LoadLightningSend(hash, a.store.reload);
        ok := current.Ok? && current.value.status.AtOrBeyond(OutboundPending);
        AfterNothing(calls, store.Value(), ok);
        return;
      }
      ok := Send(hash, gate, now, a);
    }

    method Send(hash: string, gate: Gate, now: int, a: Answer) returns (ok: bool)
      modifies store, this`calls
      ensures var o := Finish(env, old(store.Value()), now, PaySend(hash, gate), a);
              ok == o.ok && store.Value() == o.db && calls == After(old(calls), o)
    {
      SendingOutcome(env, store.Value(), now, hash, gate, a);
      AfterPayment(calls, Payment(hash, gate), SendOutcome(store.Value(), now, hash, a));
      calls := calls.(payments := calls.payments + [Payment(hash, gate)]);
      match a.send {
        case TransportError =>
          AfterNothing(calls, store.Value(), false);
          return false;
        case ReportedFailed =>
          UndoOutcome(env, store.Value(), now, hash, Cancelled, "failed", a);
          UndoLightningSend(hash, Cancelled, "failed", now, a);
          return true;
        case Initiated =>
          ToSet1(OutboundPending);
          var paid := store.AdvanceLightningSend(hash, [OutboundPending], OutboundPaid, NO_UPDATE, now, a.store.record);
          AfterNothing(calls, store.Value(), paid.Ok?);
          return paid.Ok?;
      }
    }

    /** Pays the delivery leg: load, gate, take, send, record. */
    method PayOutboundJob(hash: string, now: int, a: Answer) returns (ok: bool)
      modifies store, this`calls
      ensures var o := Finish(env, old(store.Value()), now, PayLoad(hash), a);
              ok == o.ok && store.Value() == o.db && calls == After(old(calls), o)
    {
      var rec := store.LoadLightningSend(hash, a.store.load);
      if rec.Err? || rec.value.status.AtOrBeyond(OutboundPaid) || rec.value.status.Terminal() {
        LoadingStops(env, store.Value(), now, hash, a);
        AfterNothing(calls, store.Value(), rec.Ok?);
        return rec.Ok?;
      }
      LoadingGoesOn(env, store.Value(), now, hash, a);
      var gate := CheckGate(env, rec.value, a);
      if gate == None {
        UndoLightningSend(hash, Failed, "refused", now, a);
        return true;
      }
      ok := TakeAndSend(hash, gate.value, now, a);
    }

    /** Collects the caller's HTLC with the released preimage. */
    method ClaimInboundJob(hash: string, now: int, a: Answer) returns (ok: bool)
      modifies store, this`calls
      ensures var o := Finish(env, old(store.Value()), now, ClaimLoad(hash), a);
              ok == o.ok && store.Value() == o.db && calls == After(old(calls), o)
    {
      ClaimingOutcome(env, store.Value(), now, hash, a);
      AfterNothing(calls, store.Value(), false);
      AfterNothing(calls, store.Value(), true);
      var rec := store.LoadLightningSend(hash, a.store.load);
      if rec.Err? {
        return false;
      }
      if rec.value.status.AtOrBeyond(Settled) {
        return true;
      }
      if rec.value.status != OutboundClaimed || rec.value.preimage == None {
        return false;
      }
      if !a.claimed {
        return false;
      }
      ToSet1(OutboundClaimed);
      ghost var before := calls;
      calls := calls.(claims := calls.claims + {Claim(hash, rec.value.preimage.value)});
      var settled := store.AdvanceLightningSend(hash, [OutboundClaimed], Settled, NO_UPDATE, now, a.store.record);
      AfterClaim(before, Claim(hash, rec.value.preimage.value), store.Value(), settled.Ok?);
      return settled.Ok?;
    }
  }

  lemma ToUndoable()
    ensures (set x | x in [Quoted, Claimable, OutboundPending]) == UNDOABLE
  {}

  lemma ToSet1(x: SendState)
    ensures (set y | y in [x]) == {x}
  {}
}
