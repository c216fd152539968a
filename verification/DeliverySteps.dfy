/** What one visit does to a mapping, spelled out, and what every payment waited for. */
module DeliverySteps {
  import opened Wrappers
  import opened DeadlinePolicy
  import DeliveryBackoff
  import opened Delivery
  import opened DeliveryRuns

  predicate PastExpiry(m: Mapping, now: int) {
    m.expiresAt.Some? && now > m.expiresAt.value
  }

  /** When a visit pays: the mapping is inside its expiry, its transfer status is known and,
      before anything was delivered, settled; the invoice decodes and can be delivered; and a
      payment already known of is one the node no longer holds. */
  predicate Pays(env: Env, s: State, id: nat, a: Answer)
    requires id in s.mappings
  {
    var m := s.mappings[id];
    && !PastExpiry(m, s.now) && a.rgb.Some? && a.decodes && a.deliverable
    && (if m.status == Delivering
        then m.paymentHash == "" || (a.statusKnown && Held(s.node, m.paymentHash) in {None, Some(PaymentFailed)})
        else a.rgb == Some(Settled))
  }

  /** A visit sends exactly then, once, the mapping's own invoice. */
  lemma VisitSendsIff(env: Env, s: State, id: nat, a: Answer)
    requires id in s.mappings
    ensures var h := env.hashOf(s.mappings[id].invoice);
            Visit(env, s, id, a).sends == if Pays(env, s, id, a) then s.sends + [Send(id, h, Held(s.node, h))] else s.sends
  {}

  /** Only such a visit changes what the node holds: a new payment is in flight when it was
      started, failed when the node reports it failed, and one still held is left alone. */
  lemma VisitStartsIff(env: Env, s: State, id: nat, a: Answer)
    requires id in s.mappings
    ensures var h := env.hashOf(s.mappings[id].invoice);
            Visit(env, s, id, a).node
            == if !Pays(env, s, id, a) || Held(s.node, h) in {Some(InFlight), Some(Succeeded)} || a.send.LostBeforeStart? then s.node
               else s.node[h := if a.send.ReportedFailed? then PaymentFailed else InFlight]
  {}

  /** A stored visit that does not deliver: past expiry the mapping expires; an unknown or
      waiting transfer leaves it; a failed or expired transfer closes it. */
  lemma VisitBeforeDelivery(env: Env, s: State, id: nat, a: Answer)
    requires id in s.mappings && a.stored
    ensures var m := s.mappings[id]; var m' := Visit(env, s, id, a).mappings[id];
            && (PastExpiry(m, s.now) ==> m' == m.(status := Expired))
            && (!PastExpiry(m, s.now) && a.rgb == None ==> m' == m)
            && (!PastExpiry(m, s.now) && m.status != Delivering ==>
                  && (a.rgb == Some(Waiting) ==> m' == m)
                  && (a.rgb == Some(RgbFailed) ==> m' == m.(status := Failed))
                  && (a.rgb == Some(RgbExpired) ==> m' == m.(status := Expired))
                  && (a.rgb == Some(Settled) ==> m'.status == Delivering))
  {}

  /** A stored visit that reads the outcome: succeeded completes the mapping, in flight parks it
      for the base delay with nothing else changed, and otherwise one more attempt counts. */
  lemma VisitReadsOutcome(env: Env, s: State, id: nat, a: Answer)
    requires id in s.mappings && a.stored && s.mappings[id].status == Delivering && s.mappings[id].paymentHash != ""
    requires !PastExpiry(s.mappings[id], s.now) && a.rgb.Some?
    ensures var m := s.mappings[id]; var m' := Visit(env, s, id, a).mappings[id]; var held := Held(s.node, m.paymentHash);
            && (a.statusKnown && held == Some(Succeeded) ==> m' == m.(status := Completed, nextAttemptAt := None))
            && (a.statusKnown && held == Some(InFlight) ==> m' == m.(nextAttemptAt := Some(s.now + env.retryBase)))
            && (!a.statusKnown || held in {None, Some(PaymentFailed)} ==>
                  m'.status == Delivering && m'.attempts == m.attempts + 1 && m'.nextAttemptAt.Some?)
            && m'.paymentHash == (if Pays(env, s, id, a) && a.returnsHash && (env.hashOf(m.invoice) != "" || a.send.Initiated?)
                                  then env.hashOf(m.invoice) else m.paymentHash)
  {}

  /** A stored first attempt: once it decodes the hash is known, sent or not; the next look is
      after the base delay when the payment was started, after the backoff otherwise. */
  lemma VisitFirstAttempt(env: Env, s: State, id: nat, a: Answer)
    requires id in s.mappings && a.stored && !PastExpiry(s.mappings[id], s.now) && a.rgb.Some?
    requires if s.mappings[id].status == Delivering then s.mappings[id].paymentHash == "" else a.rgb == Some(Settled)
    ensures var m := s.mappings[id]; var m' := Visit(env, s, id, a).mappings[id];
            && m'.status == Delivering && m'.attempts == m.attempts + 1 && m'.invoice == m.invoice && m'.expiresAt == m.expiresAt
            && m'.paymentHash == (if a.decodes && env.hashOf(m.invoice) != "" then env.hashOf(m.invoice)
                                  else if Pays(env, s, id, a) && a.send.Initiated? then "" else m.paymentHash)
            && m'.nextAttemptAt == Some(s.now + if Pays(env, s, id, a) && a.send.Initiated? then env.retryBase
                                                else DeliveryBackoff.Backoff(env.retryBase, env.retryMax, m.attempts + 1))
  {}

  /** A tick visits a mapping exactly when it waits for its transfer or delivers, and its next
      attempt, if one is set, has come. */
  lemma GoVisitsIff(env: Env, s: State, id: nat, a: Answer)
    ensures Exec(env, s, Go(id, a))
            == if && id in s.mappings && (s.mappings[id].status == PendingRgb || s.mappings[id].status == Delivering)
                  && (s.mappings[id].nextAttemptAt == None || s.mappings[id].nextAttemptAt.value <= s.now)
               then Visit(env, s, id, a) else s
  {}

  /** A delivery that is in flight and then succeeds completes at the first stored visit after
      its next attempt has come and before its expiry; one that fails is sent again there. */
  lemma DeliveryConcludes(env: Env, s: State, id: nat, success: bool, wait: nat, a: Answer)
    requires id in s.mappings && s.mappings[id].status == Delivering && s.mappings[id].paymentHash != ""
    requires Held(s.node, s.mappings[id].paymentHash) == Some(InFlight)
    requires s.mappings[id].nextAttemptAt.Some? ==> s.now + wait >= s.mappings[id].nextAttemptAt.value
    requires s.mappings[id].expiresAt.Some? ==> s.now + wait <= s.mappings[id].expiresAt.value
    requires a.stored && a.rgb.Some? && a.statusKnown && a.decodes && a.deliverable
    ensures var s' := Exec(env, Exec(env, Exec(env, s, Resolve(s.mappings[id].paymentHash, success)), Wait(wait)), Go(id, a));
            && id in s'.mappings
            && (if success then s'.mappings[id].status == Completed && s'.sends == s.sends
                else s'.mappings[id].status == Delivering && |s'.sends| == |s.sends| + 1)
  {}

  // ---------------------------------------------------------------- the list of a tick

  lemma {:induction false} ListsAgreeAt(mappings: map<nat, Mapping>, now: int, limit: nat, a: seq<nat>, b: seq<nat>, i: nat)
    requires IsPendingList(mappings, now, limit, a) && IsPendingList(mappings, now, limit, b)
    requires i < |a| && i < |b| && a[..i] == b[..i]
    ensures a[i] <= b[i]
  {
    assert forall j :: 0 <= j < i ==> a[j] == a[..i][j] && b[j] == b[..i][j];
    if b[i] in a {
      var j :| 0 <= j < |a| && a[j] == b[i];
      assert j >= i;
    }
  }

  /** A list that due mappings with higher ids could follow is full. */
  lemma ListIsFull(mappings: map<nat, Mapping>, now: int, limit: nat, a: seq<nat>, b: seq<nat>)
    requires IsPendingList(mappings, now, limit, a) && |a| <= |b| && a == b[..|a|]
    requires forall i :: 0 <= i < |b| ==> b[i] in mappings && Due(mappings[b[i]], now)
    requires forall i, j :: 0 <= i < j < |b| ==> b[i] < b[j]
    ensures a == b || |a| == limit
  {
    if |a| < |b| {
      assert forall j :: 0 <= j < |a| ==> a[j] == b[..|a|][j];
      assert b[|a|] !in a;
    }
  }

  /** The list a tick works through is determined by the table, the clock and the limit. */
  lemma {:induction false} PendingListIsUnique(mappings: map<nat, Mapping>, now: int, limit: nat, a: seq<nat>, b: seq<nat>, n: nat)
    requires IsPendingList(mappings, now, limit, a) && IsPendingList(mappings, now, limit, b)
    requires n <= |a| && n <= |b| && a[..n] == b[..n]
    ensures a == b
    decreases |a| - n
  {
    if n < |a| && n < |b| {
      ListsAgreeAt(mappings, now, limit, a, b, n);
      ListsAgreeAt(mappings, now, limit, b, a, n);
      assert a[..n + 1] == a[..n] + [a[n]] && b[..n + 1] == b[..n] + [b[n]];
      PendingListIsUnique(mappings, now, limit, a, b, n + 1);
    } else {
      assert a[..|a|] == a && b[..|b|] == b;
      if n == |a| {
        ListIsFull(mappings, now, limit, a, b);
      } else {
        ListIsFull(mappings, now, limit, b, a);
      }
    }
  }

  // ---------------------------------------------------------------- over runs

  /** A visit to a mapping still waiting for its transfer heard that it is settled. */
  predicate HeardSettled(s: State, e: Event, id: nat) {
    && e.Go? && e.id == id && id in s.mappings && s.mappings[id].status == PendingRgb
    && e.answer.rgb == Some(Settled) && !PastExpiry(s.mappings[id], s.now)
  }

  ghost predicate WasSettled(env: Env, es: seq<Event>, id: nat) {
    exists k :: 0 <= k < |es| && HeardSettled(Run(env, START, es[..k]), es[k], id)
  }

  ghost predicate AllSettled(env: Env, es: seq<Event>, s: State) {
    && (forall id :: id in s.mappings && (s.mappings[id].status == Delivering || s.mappings[id].status == Completed) ==>
          WasSettled(env, es, id))
    && (forall i :: 0 <= i < |s.sends| ==> WasSettled(env, es, s.sends[i].id))
  }

  lemma SettledMore(env: Env, es: seq<Event>, e: Event, id: nat)
    requires WasSettled(env, es, id) || HeardSettled(Run(env, START, es), e, id)
    ensures WasSettled(env, es + [e], id)
  {
    if WasSettled(env, es, id) {
      var k :| 0 <= k < |es| && HeardSettled(Run(env, START, es[..k]), es[k], id);
      assert (es + [e])[..k] == es[..k] && (es + [e])[k] == es[k];
    } else {
      assert (es + [e])[..|es|] == es && (es + [e])[|es|] == e;
    }
  }

  /** A mapping that delivers or completes was delivering, or is told just now. */
  lemma VisitNeedsSettled(env: Env, s: State, id: nat, a: Answer)
    requires id in s.mappings && Due(s.mappings[id], s.now)
    ensures var m' := Visit(env, s, id, a).mappings[id];
            && (m'.status == Delivering || m'.status == Completed || Pays(env, s, id, a) ==>
                  s.mappings[id].status == Delivering || HeardSettled(s, Go(id, a), id))
  {
    VisitSameRows(env, s, id, a);
  }

  lemma VisitSettled(env: Env, es: seq<Event>, s: State, id: nat, a: Answer)
    requires s == Run(env, START, es) && AllSettled(env, es, s) && id in s.mappings && Due(s.mappings[id], s.now)
    ensures AllSettled(env, es + [Go(id, a)], Visit(env, s, id, a))
  {
    var e, s' := Go(id, a), Visit(env, s, id, a);
    VisitTouches(env, s, id, a);
    VisitNeedsSettled(env, s, id, a);
    VisitSendsIff(env, s, id, a);
    forall k | k in s'.mappings && (s'.mappings[k].status == Delivering || s'.mappings[k].status == Completed)
      ensures WasSettled(env, es + [e], k)
    {
      SettledMore(env, es, e, k);
    }
    forall i | 0 <= i < |s'.sends| ensures WasSettled(env, es + [e], s'.sends[i].id) {
      SettledMore(env, es, e, s'.sends[i].id);
    }
  }

  lemma StepSettled(env: Env, es: seq<Event>, s: State, e: Event)
    requires s == Run(env, START, es) && AllSettled(env, es, s)
    ensures AllSettled(env, es + [e], Exec(env, s, e))
  {
    if e.Go? && e.id in s.mappings && Due(s.mappings[e.id], s.now) {
      VisitSettled(env, es, s, e.id, e.answer);
    } else {
      forall id | WasSettled(env, es, id) ensures WasSettled(env, es + [e], id) {
        SettledMore(env, es, e, id);
      }
    }
  }

  lemma {:induction false} RunLast(env: Env, s: State, es: seq<Event>, e: Event)
    ensures Run(env, s, es + [e]) == Exec(env, Run(env, s, es), e)
    decreases |es|
  {
    if es == [] {
      assert [] + [e] == [e] && [e][1..] == [];
      assert Run(env, Exec(env, s, e), []) == Exec(env, s, e);
    } else {
      assert (es + [e])[0] == es[0] && (es + [e])[1..] == es[1..] + [e];
      RunLast(env, Exec(env, s, es[0]), es[1..], e);
    }
  }

  lemma {:induction false} RunSettled(env: Env, es: seq<Event>)
    ensures AllSettled(env, es, Run(env, START, es))
    decreases |es|
  {
    if es != [] {
      var front, e := es[..|es| - 1], es[|es| - 1];
      assert es == front + [e];
      RunSettled(env, front);
      StepSettled(env, front, Run(env, START, front), e);
      RunLast(env, START, front, e);
    }
  }

  /** In every run each mapping a payment was sent for had its transfer reported settled, at an
      earlier visit or the one that sent; and so had each mapping that delivers or completed. */
  lemma SendsWaitForSettled(env: Env, es: seq<Event>, i: nat)
    requires i < |Run(env, START, es).sends|
    ensures WasSettled(env, es, Run(env, START, es).sends[i].id)
  {
    RunSettled(env, es);
  }
}
