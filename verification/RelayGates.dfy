/** What the pay gate lets through, spelled out, and that nothing is paid without it. */
module RelayGates {
  import opened Wrappers
  import opened DeadlinePolicy
  import opened RelayStore
  import opened Outbox
  import opened Relay
  import opened RelayRuns
  import opened RelayChains

  /** The delivery invoice decodes, the height is known, a deadline is on record, and more
      blocks are left than the invoice's final delta and the margin, counted in 64 bits. */
  predicate LetsThrough(env: Env, row: SendRow, a: Answer) {
    && a.decodes && a.height.Some? && row.deadline.Some? && row.deadline.value > 0
    && row.deadline.value - a.height.value > (env.margin + env.finalDelta(row.outboundInvoice)) % TWO_64
  }

  /** A worker at the gate goes on to take the payment exactly when it is let through, with
      what it saw; otherwise it undoes the relay. Nothing else changes. */
  lemma GateLetsThroughIff(env: Env, s: System, w: nat, a: Answer, h: string, row: SendRow)
    requires At(s, w, PayGate(h, row))
    ensures var s' := Exec(env, s, Go(w, a));
            && s'.db == s.db && OnlyWork(s, s')
            && At(s', w, if LetsThrough(env, row, a)
                         then PayTake(h, Gate(row.deadline.value, a.height.value, env.finalDelta(row.outboundInvoice)))
                         else UndoCancel(h, Failed, "refused"))
  {
    if row.deadline.Some? && a.height.Some? {
      GateMeans(row.deadline.value, a.height.value, Required(env, row.outboundInvoice));
    }
    GateStep(env, s, w, a, h, row);
  }

  // ---------------------------------------------------------------- over runs

  /** In this step a worker that loaded relay `h` was let through with what `gate` recalls. */
  predicate OpensAt(env: Env, s: System, e: Event, h: string, gate: Gate) {
    && e.Go? && e.worker in s.workers && s.workers[e.worker].PayGate? && s.workers[e.worker].hash == h
    && var row := s.workers[e.worker].row;
    && LetsThrough(env, row, e.answer)
    && gate == Gate(row.deadline.value, e.answer.height.value, env.finalDelta(row.outboundInvoice))
  }

  ghost predicate Passed(env: Env, es: seq<Event>, h: string, gate: Gate) {
    exists k :: 0 <= k < |es| && OpensAt(env, Run(env, IDLE, es[..k]), es[k], h, gate)
  }

  ghost predicate AllPassed(env: Env, es: seq<Event>, s: System) {
    && (forall w :: w in s.workers && (s.workers[w].PayTake? || s.workers[w].PaySend?) ==>
          Passed(env, es, s.workers[w].hash, s.workers[w].gate))
    && (forall i :: 0 <= i < |s.payments| ==> Passed(env, es, s.payments[i].hash, s.payments[i].gate))
  }

  lemma RunLast(env: Env, s: System, es: seq<Event>, e: Event)
    ensures Run(env, s, es + [e]) == Exec(env, Run(env, s, es), e)
  {
    RunConcat(env, s, es, [e]);
    RunOne(env, Run(env, s, es), e);
  }

  lemma PassedStays(env: Env, es: seq<Event>, e: Event, h: string, gate: Gate)
    requires Passed(env, es, h, gate)
    ensures Passed(env, es + [e], h, gate)
  {
    var k :| 0 <= k < |es| && OpensAt(env, Run(env, IDLE, es[..k]), es[k], h, gate);
    assert (es + [e])[..k] == es[..k] && (es + [e])[k] == es[k];
  }

  lemma PassesNow(env: Env, es: seq<Event>, e: Event, h: string, gate: Gate)
    requires OpensAt(env, Run(env, IDLE, es), e, h, gate)
    ensures Passed(env, es + [e], h, gate)
  {
    assert (es + [e])[..|es|] == es && (es + [e])[|es|] == e;
  }

  /** Where a worker about to take or send comes from. */
  lemma WorkerComesFrom(env: Env, s: System, w: nat, a: Answer)
    requires w in s.workers && !s.workers[w].Report?
    ensures var m := WorkerStep(env, s.db, s.now, s.workers[w], a);
            && (m.next.PayTake? ==> OpensAt(env, s, Go(w, a), m.next.hash, m.next.gate))
            && (m.next.PaySend? ==> s.workers[w] == PayTake(m.next.hash, m.next.gate))
            && (m.payments == [] || (s.workers[w].PaySend? && m.payments == [Payment(s.workers[w].hash, s.workers[w].gate)]))
  {
    var pc := s.workers[w];
    if pc.PayGate? && pc.row.deadline.Some? && a.height.Some? {
      GateMeans(pc.row.deadline.value, a.height.value, Required(env, pc.row.outboundInvoice));
    }
  }

  lemma WorkerPasses(env: Env, es: seq<Event>, s: System, w: nat, a: Answer)
    requires s == Run(env, IDLE, es) && AllPassed(env, es, s) && w in s.workers && !s.workers[w].Report?
    ensures AllPassed(env, es + [Go(w, a)], Moving(s, w, WorkerStep(env, s.db, s.now, s.workers[w], a)))
  {
    var e := Go(w, a);
    var m := WorkerStep(env, s.db, s.now, s.workers[w], a);
    var s' := Moving(s, w, m);
    WorkerComesFrom(env, s, w, a);
    forall v | v in s'.workers && (s'.workers[v].PayTake? || s'.workers[v].PaySend?)
      ensures Passed(env, es + [e], s'.workers[v].hash, s'.workers[v].gate)
    {
      if v == w && m.next.PayTake? {
        PassesNow(env, es, e, m.next.hash, m.next.gate);
      } else {
        PassedStays(env, es, e, s.workers[v].hash, s.workers[v].gate);
      }
    }
    forall i | 0 <= i < |s'.payments| ensures Passed(env, es + [e], s'.payments[i].hash, s'.payments[i].gate) {
      if i < |s.payments| {
        PassedStays(env, es, e, s.payments[i].hash, s.payments[i].gate);
      } else {
        PassedStays(env, es, e, s.workers[w].hash, s.workers[w].gate);
      }
    }
  }

  lemma StepPasses(env: Env, es: seq<Event>, s: System, e: Event)
    requires s == Run(env, IDLE, es) && AllPassed(env, es, s)
    ensures AllPassed(env, es + [e], Exec(env, s, e))
  {
    if e.Go? && e.worker in s.workers && !s.workers[e.worker].Report? {
      WorkerPasses(env, es, s, e.worker, e.answer);
    } else {
      forall h, gate | Passed(env, es, h, gate) ensures Passed(env, es + [e], h, gate) {
        PassedStays(env, es, e, h, gate);
      }
      assert Exec(env, s, e).payments == s.payments;
    }
  }

  lemma {:induction false} RunPasses(env: Env, es: seq<Event>)
    ensures AllPassed(env, es, Run(env, IDLE, es))
    decreases |es|
  {
    if es != [] {
      var front, e := es[..|es| - 1], es[|es| - 1];
      assert es == front + [e];
      RunPasses(env, front);
      StepPasses(env, front, Run(env, IDLE, front), e);
      RunLast(env, IDLE, front, e);
    }
  }

  /** In every run each payment passed a gate: some earlier step of a worker of its relay, at
      which its invoice decoded and enough blocks were left at the deadline on record. */
  lemma PaymentsPassedTheGate(env: Env, es: seq<Event>, i: nat)
    requires i < |Run(env, IDLE, es).payments|
    ensures var p := Run(env, IDLE, es).payments[i]; Passed(env, es, p.hash, p.gate)
  {
    RunPasses(env, es);
  }
}
