/** What every sequence of receives, cron visits and node events keeps. */
module DeliveryRuns {
  import opened Wrappers
  import opened DeadlinePolicy
  import DeliveryBackoff
  import opened Delivery

  datatype Event =
    | Receive(id: nat, invoice: string, expiresAt: Option<int>)
    | Wait(seconds: nat)
    | Go(id: nat, answer: Answer)
    | Resolve(hash: string, success: bool)

  predicate HasInvoice(s: State, invoice: string) {
    exists id :: id in s.mappings && s.mappings[id].invoice == invoice
  }

  ghost function Exec(env: Env, s: State, e: Event): State {
    match e
    case Receive(id, invoice, expiresAt) =>
      if id in s.mappings || HasInvoice(s, invoice) then s
      else s.(mappings := s.mappings[id := Mapping(invoice, PendingRgb, "", 0, None, expiresAt)])
    case Wait(seconds) => s.(now := s.now + seconds)
    case Go(id, a) => if id in s.mappings && Due(s.mappings[id], s.now) then Visit(env, s, id, a) else s
    case Resolve(hash, success) =>
      if Held(s.node, hash) == Some(InFlight)
      then s.(node := s.node[hash := if success then Succeeded else PaymentFailed]) else s
  }

  ghost function Run(env: Env, s: State, es: seq<Event>): State
    decreases |es|
  {
    if es == [] then s else Run(env, Exec(env, s, es[0]), es[1..])
  }

  const START := State(map[], 0, map[], [])

  /** Decoding any invoice text yields a payment hash. */
  ghost predicate Decodes(env: Env) {
    forall invoice :: env.hashOf(invoice) != ""
  }

  function HashOf(env: Env, s: State, id: nat): string
    requires id in s.mappings
  {
    env.hashOf(s.mappings[id].invoice)
  }

  ghost predicate DistinctHashes(env: Env, s: State) {
    forall i, j :: i in s.mappings && j in s.mappings && i != j ==> HashOf(env, s, i) != HashOf(env, s, j)
  }

  /** A mapping knows the hash of every payment made for it, and completes only on success. */
  predicate RowInv(env: Env, s: State, id: nat)
    requires id in s.mappings
  {
    var m := s.mappings[id];
    && (m.paymentHash == "" || m.paymentHash == HashOf(env, s, id))
    && (Busy(Held(s.node, HashOf(env, s, id))) ==> m.paymentHash != "")
    && (m.status.Completed? ==> Held(s.node, HashOf(env, s, id)) == Some(Succeeded))
    && (m.status.PendingRgb? ==> m.paymentHash == "")
  }

  ghost predicate SendsIdle(s: State) {
    forall i :: 0 <= i < |s.sends| ==> !Busy(s.sends[i].held)
  }

  ghost predicate NodeOwned(env: Env, s: State) {
    forall h :: h in s.node ==> exists id :: id in s.mappings && HashOf(env, s, id) == h
  }

  ghost predicate Inv(env: Env, s: State) {
    && (forall id :: id in s.mappings ==> RowInv(env, s, id))
    && NodeOwned(env, s) && SendsIdle(s)
  }

  // ---------------------------------------------------------------- one visit

  /** A visit changes its own mapping and, at most, what the node holds for its hash. */
  ghost predicate OnlyTouches(env: Env, s: State, s': State, id: nat)
    requires id in s.mappings
  {
    && SameRows(s, s')
    && (forall k :: k in s.mappings && k != id ==> s'.mappings[k] == s.mappings[k])
    && (forall h :: h != HashOf(env, s, id) ==> Held(s'.node, h) == Held(s.node, h))
    && s.sends <= s'.sends
    && (Held(s.node, HashOf(env, s, id)) == Some(Succeeded) ==> Held(s'.node, HashOf(env, s, id)) == Some(Succeeded))
  }

  lemma StartTouches(env: Env, s: State, id: nat, a: Answer)
    requires id in s.mappings
    ensures OnlyTouches(env, s, Start(env, s, id, a), id)
  {}

  lemma RetryTouches(env: Env, s: State, id: nat, a: Answer)
    requires id in s.mappings
    ensures OnlyTouches(env, s, Retry(env, s, id, a), id)
  {}

  lemma PollTouches(env: Env, s: State, id: nat, a: Answer)
    requires id in s.mappings
    ensures OnlyTouches(env, s, Poll(env, s, id, a), id)
  {
    if s.mappings[id].paymentHash == "" {
      StartTouches(env, s, id, a);
    } else if a.statusKnown && !Busy(Held(s.node, s.mappings[id].paymentHash)) {
      RetryTouches(env, s, id, a);
    }
  }

  lemma StatusTouches(env: Env, s: State, id: nat, status: Status)
    requires id in s.mappings
    ensures OnlyTouches(env, s, s, id) && OnlyTouches(env, s, WithStatus(s, id, status), id)
  {}

  lemma VisitedTouches(env: Env, s: State, id: nat, a: Answer)
    requires id in s.mappings
    ensures OnlyTouches(env, s, Visited(env, s, id, a), id)
  {
    var m := s.mappings[id];
    var s' := Visited(env, s, id, a);
    if m.expiresAt.Some? && s.now > m.expiresAt.value {
      StatusTouches(env, s, id, Expired);
    } else if a.rgb == None {
      StatusTouches(env, s, id, Expired);
    } else if m.status.Delivering? {
      PollTouches(env, s, id, a);
      assert s' == Poll(env, s, id, a);
    } else if a.rgb.value.Settled? {
      StartTouches(env, s, id, a);
      assert s' == Start(env, s, id, a);
    } else {
      StatusTouches(env, s, id, Failed);
      StatusTouches(env, s, id, Expired);
    }
  }

  lemma VisitTouches(env: Env, s: State, id: nat, a: Answer)
    requires id in s.mappings
    ensures OnlyTouches(env, s, Visit(env, s, id, a), id)
  {
    VisitedTouches(env, s, id, a);
  }

  /** Starting is safe on a mapping nothing was sent for; retrying is safe when the node is
      not busy with its hash. */
  lemma SendingIsSafe(env: Env, s: State, id: nat, fallback: string, next: int, a: Answer)
    requires Decodes(env) && id in s.mappings && RowInv(env, s, id) && SendsIdle(s)
    requires !Busy(Held(s.node, HashOf(env, s, id))) && fallback == HashOf(env, s, id)
    ensures var s' := Sending(env, s, id, fallback, next, a); id in s'.mappings && RowInv(env, s', id) && SendsIdle(s')
  {}

  lemma StartIsSafe(env: Env, s: State, id: nat, a: Answer)
    requires Decodes(env) && id in s.mappings && RowInv(env, s, id) && SendsIdle(s) && s.mappings[id].paymentHash == ""
    ensures var s' := Start(env, s, id, a); id in s'.mappings && RowInv(env, s', id) && SendsIdle(s')
  {
    if a.decodes && a.deliverable {
      SendingIsSafe(env, s, id, HashOf(env, s, id), s.now + env.retryBase, a);
    }
  }

  lemma RetryIsSafe(env: Env, s: State, id: nat, a: Answer)
    requires Decodes(env) && id in s.mappings && RowInv(env, s, id) && SendsIdle(s)
    requires s.mappings[id].paymentHash != "" && !Busy(Held(s.node, s.mappings[id].paymentHash))
    ensures var s' := Retry(env, s, id, a); id in s'.mappings && RowInv(env, s', id) && SendsIdle(s')
  {
    if a.decodes && a.deliverable {
      SendingIsSafe(env, s, id, HashOf(env, s, id), BackoffTime(env, s.now, s.mappings[id].attempts + 1), a);
    }
  }

  lemma PollIsSafe(env: Env, s: State, id: nat, a: Answer)
    requires Decodes(env) && id in s.mappings && RowInv(env, s, id) && SendsIdle(s) && s.mappings[id].status.Delivering?
    ensures var s' := Poll(env, s, id, a); id in s'.mappings && RowInv(env, s', id) && SendsIdle(s')
  {
    if s.mappings[id].paymentHash == "" {
      StartIsSafe(env, s, id, a);
    } else if a.statusKnown && !Busy(Held(s.node, s.mappings[id].paymentHash)) {
      RetryIsSafe(env, s, id, a);
    }
  }

  lemma VisitedIsSafe(env: Env, s: State, id: nat, a: Answer)
    requires Decodes(env) && id in s.mappings && RowInv(env, s, id) && SendsIdle(s) && Due(s.mappings[id], s.now)
    ensures var s' := Visited(env, s, id, a); id in s'.mappings && RowInv(env, s', id) && SendsIdle(s')
  {
    if s.mappings[id].status.Delivering? {
      PollIsSafe(env, s, id, a);
    } else {
      StartIsSafe(env, s, id, a);
    }
  }

  /** The store does not take the write after a mapping's first payment was started, so the
      mapping still knows of none. */
  predicate LosesFirstSend(env: Env, s: State, id: nat, a: Answer)
    requires id in s.mappings
  {
    !a.stored && s.mappings[id].paymentHash == "" && Busy(Held(Visited(env, s, id, a).node, HashOf(env, s, id)))
  }

  lemma VisitIsSafe(env: Env, s: State, id: nat, a: Answer)
    requires Decodes(env) && id in s.mappings && RowInv(env, s, id) && SendsIdle(s) && Due(s.mappings[id], s.now)
    ensures SendsIdle(Visit(env, s, id, a))
    ensures var s' := Visit(env, s, id, a); id in s'.mappings && (RowInv(env, s', id) <==> !LosesFirstSend(env, s, id, a))
  {
    VisitedIsSafe(env, s, id, a);
    VisitedSameRows(env, s, id, a);
  }

  lemma VisitKeeps(env: Env, s: State, s': State, id: nat)
    requires Inv(env, s) && DistinctHashes(env, s) && id in s.mappings
    requires OnlyTouches(env, s, s', id) && RowInv(env, s', id) && SendsIdle(s')
    ensures Inv(env, s')
  {
    forall k | k in s'.mappings && k != id ensures RowInv(env, s', k) {
      assert RowInv(env, s, k) && HashOf(env, s, k) != HashOf(env, s, id);
      assert Held(s'.node, HashOf(env, s, k)) == Held(s.node, HashOf(env, s, k));
    }
    forall h | h in s'.node ensures exists k :: k in s'.mappings && HashOf(env, s', k) == h {
      if h == HashOf(env, s, id) {
        assert HashOf(env, s', id) == h;
      } else {
        assert Held(s'.node, h) == Held(s.node, h);
        var k :| k in s.mappings && HashOf(env, s, k) == h;
        assert HashOf(env, s', k) == h;
      }
    }
  }

  // ---------------------------------------------------------------- runs

  lemma ReceiveKeeps(env: Env, s: State, e: Event)
    requires Inv(env, s) && e.Receive? && DistinctHashes(env, Exec(env, s, e))
    ensures Inv(env, Exec(env, s, e))
  {
    var s' := Exec(env, s, e);
    if s' != s {
      forall k | k in s.mappings ensures RowInv(env, s', k) && HashOf(env, s', k) == HashOf(env, s, k) {
        assert RowInv(env, s, k);
      }
      assert forall k :: k in s.mappings ==> HashOf(env, s', k) != HashOf(env, s', e.id);
      assert HashOf(env, s', e.id) !in s.node && Held(s.node, HashOf(env, s', e.id)) == None;
    }
  }

  lemma ResolveKeeps(env: Env, s: State, e: Event)
    requires Inv(env, s) && e.Resolve?
    ensures Inv(env, Exec(env, s, e))
  {
    var s' := Exec(env, s, e);
    forall k | k in s.mappings ensures RowInv(env, s', k) {
      assert RowInv(env, s, k);
    }
    forall h | h in s'.node ensures exists id :: id in s'.mappings && HashOf(env, s', id) == h {
      var k :| k in s.mappings && HashOf(env, s, k) == h;
      assert HashOf(env, s', k) == h;
    }
  }

  predicate KeepsFirstSend(env: Env, s: State, e: Event) {
    e.Go? && e.id in s.mappings && Due(s.mappings[e.id], s.now) ==> !LosesFirstSend(env, s, e.id, e.answer)
  }

  ghost predicate KeepsFirstSends(env: Env, s: State, es: seq<Event>)
    decreases |es|
  {
    es == [] || (KeepsFirstSend(env, s, es[0]) && KeepsFirstSends(env, Exec(env, s, es[0]), es[1..]))
  }

  lemma StepKeeps(env: Env, s: State, e: Event)
    requires Decodes(env) && Inv(env, s) && DistinctHashes(env, Exec(env, s, e)) && KeepsFirstSend(env, s, e)
    ensures Inv(env, Exec(env, s, e))
  {
    match e
    case Receive(_, _, _) => ReceiveKeeps(env, s, e);
    case Wait(_) =>
      var s' := Exec(env, s, e);
      assert forall k :: k in s.mappings ==> RowInv(env, s, k) && HashOf(env, s', k) == HashOf(env, s, k);
    case Go(id, a) =>
      if id in s.mappings && Due(s.mappings[id], s.now) {
        VisitTouches(env, s, id, a);
        VisitIsSafe(env, s, id, a);
        EarlierIsDistinct(env, s, e);
        VisitKeeps(env, s, Visit(env, s, id, a), id);
      }
    case Resolve(_, _) => ResolveKeeps(env, s, e);
  }

  lemma StepKeepsRows(env: Env, s: State, e: Event, id: nat)
    requires id in s.mappings
    ensures id in Exec(env, s, e).mappings && HashOf(env, Exec(env, s, e), id) == HashOf(env, s, id)
  {
    if e.Go? && e.id in s.mappings {
      VisitSameRows(env, s, e.id, e.answer);
    }
  }

  lemma EarlierIsDistinct(env: Env, s: State, e: Event)
    requires DistinctHashes(env, Exec(env, s, e))
    ensures DistinctHashes(env, s)
  {
    forall i, j | i in s.mappings && j in s.mappings && i != j ensures HashOf(env, s, i) != HashOf(env, s, j) {
      StepKeepsRows(env, s, e, i);
      StepKeepsRows(env, s, e, j);
    }
  }

  lemma {:induction false} EarlierRunIsDistinct(env: Env, s: State, es: seq<Event>)
    requires DistinctHashes(env, Run(env, s, es))
    ensures DistinctHashes(env, s)
    decreases |es|
  {
    if es != [] {
      EarlierRunIsDistinct(env, Exec(env, s, es[0]), es[1..]);
      EarlierIsDistinct(env, s, es[0]);
    }
  }

  lemma {:induction false} RunKeeps(env: Env, s: State, es: seq<Event>)
    requires Decodes(env) && Inv(env, s) && DistinctHashes(env, Run(env, s, es)) && KeepsFirstSends(env, s, es)
    ensures Inv(env, Run(env, s, es))
    decreases |es|
  {
    if es != [] {
      EarlierRunIsDistinct(env, Exec(env, s, es[0]), es[1..]);
      StepKeeps(env, s, es[0]);
      RunKeeps(env, Exec(env, s, es[0]), es[1..]);
    }
  }

  /** Over every run whose mappings have distinct payment hashes and that loses no write right
      after a first send, a payment is only ever started while the node neither has one in
      flight nor has delivered it, and a mapping is completed only after the node reported
      success. */
  lemma OnePaymentInFlight(env: Env, es: seq<Event>)
    requires Decodes(env) && DistinctHashes(env, Run(env, START, es)) && KeepsFirstSends(env, START, es)
    ensures var s := Run(env, START, es);
            && SendsIdle(s)
            && forall id :: id in s.mappings && s.mappings[id].status.Completed? ==>
                 Held(s.node, HashOf(env, s, id)) == Some(Succeeded)
  {
    assert Inv(env, START);
    RunKeeps(env, START, es);
    var s := Run(env, START, es);
    assert forall id :: id in s.mappings ==> RowInv(env, s, id);
  }

  // ---------------------------------------------------------------- a tick is a run of visits

  function Visits(ids: seq<nat>, answers: nat -> Answer): (es: seq<Event>)
    decreases |ids|
  {
    if ids == [] then [] else [Go(ids[0], answers(ids[0]))] + Visits(ids[1..], answers)
  }

  /** A cron tick over the list it read is a run of visits: each mapping listed as due is
      still due when its turn comes. */
  lemma {:induction false} TickIsVisits(env: Env, s: State, ids: seq<nat>, answers: nat -> Answer)
    requires forall i :: 0 <= i < |ids| ==> ids[i] in s.mappings && Due(s.mappings[ids[i]], s.now)
    requires forall i, j :: 0 <= i < j < |ids| ==> ids[i] != ids[j]
    ensures VisitAll(env, s, ids, answers) == Run(env, s, Visits(ids, answers))
    decreases |ids|
  {
    if ids != [] {
      var e := Go(ids[0], answers(ids[0]));
      var s1 := Visit(env, s, ids[0], answers(ids[0]));
      VisitTouches(env, s, ids[0], answers(ids[0]));
      forall i | 0 <= i < |ids[1..]|
        ensures ids[1..][i] in s1.mappings && Due(s1.mappings[ids[1..][i]], s1.now)
      {
        assert ids[1..][i] == ids[i + 1] && ids[0] != ids[i + 1];
      }
      forall i, j | 0 <= i < j < |ids[1..]| ensures ids[1..][i] != ids[1..][j] {
        assert ids[1..][i] == ids[i + 1] && ids[1..][j] == ids[j + 1];
      }
      TickIsVisits(env, s1, ids[1..], answers);
      assert Visits(ids, answers)[0] == e && Visits(ids, answers)[1..] == Visits(ids[1..], answers);
      assert Exec(env, s, e) == s1;
    }
  }

  // ---------------------------------------------------------------- expiry and retries

  /** A mapping that is completed, failed or expired never changes again. */
  lemma {:induction false} ClosedIsFinal(env: Env, s: State, es: seq<Event>, id: nat)
    requires id in s.mappings && !s.mappings[id].status.PendingRgb? && !s.mappings[id].status.Delivering?
    ensures id in Run(env, s, es).mappings && Run(env, s, es).mappings[id] == s.mappings[id]
    decreases |es|
  {
    if es != [] {
      if es[0].Go? && es[0].id in s.mappings {
        VisitTouches(env, s, es[0].id, es[0].answer);
      }
      ClosedIsFinal(env, Exec(env, s, es[0]), es[1..], id);
    }
  }

  /** Expiry wins over delivery: the first visit after it closes the mapping for good, even
      with its payment in flight, and whatever the node reports later. */
  lemma ExpiryAbandonsPayment(env: Env, s: State, id: nat, a: Answer, later: seq<Event>)
    requires id in s.mappings && Due(s.mappings[id], s.now) && a.stored
    requires s.mappings[id].expiresAt.Some? && s.now > s.mappings[id].expiresAt.value
    ensures var s' := Run(env, Exec(env, s, Go(id, a)), later);
            id in s'.mappings && s'.mappings[id].status == Expired
  {
    ClosedIsFinal(env, Exec(env, s, Go(id, a)), later, id);
  }

  /** No visit drops an undelivered mapping: unless its transfer status is unknown, it stays
      in the working set and is looked at again within the configured maximum delay. A visit
      whose write is lost leaves it as it was, due at once. */
  lemma RetryIsBounded(env: Env, s: State, id: nat, a: Answer)
    requires 0 < env.retryBase <= env.retryMax && DeliveryBackoff.FirstReaching(env.retryBase, env.retryMax) < TWO_63
    requires id in s.mappings && s.mappings[id].status.Delivering? && a.rgb.Some?
    requires s.mappings[id].expiresAt.Some? ==> s.now <= s.mappings[id].expiresAt.value
    ensures var m := Visit(env, s, id, a).mappings[id];
            if !a.stored then m == s.mappings[id]
            else m.status.Completed? || (m.status.Delivering? && m.nextAttemptAt.Some?
                   && s.now + env.retryBase <= m.nextAttemptAt.value <= s.now + env.retryMax)
  {
    var n := s.mappings[id].attempts + 1;
    DeliveryBackoff.BackoffIsMonotone(env.retryBase, env.retryMax, n, n);
    VisitSameRows(env, s, id, a);
  }

  // ---------------------------------------------------------------- exactly when

  /** The table's uniqueness constraint. */
  ghost predicate UniqueInvoices(s: State) {
    forall i, j :: i in s.mappings && j in s.mappings && i != j ==> s.mappings[i].invoice != s.mappings[j].invoice
  }

  lemma {:induction false} RunKeepsUnique(env: Env, s: State, es: seq<Event>)
    requires UniqueInvoices(s)
    ensures UniqueInvoices(Run(env, s, es))
    decreases |es|
  {
    if es != [] {
      if es[0].Go? && es[0].id in s.mappings {
        VisitSameRows(env, s, es[0].id, es[0].answer);
      }
      RunKeepsUnique(env, Exec(env, s, es[0]), es[1..]);
    }
  }

  /** Among these invoice texts, no payment hash has two. */
  ghost predicate OneTextPerHash(env: Env, texts: iset<string>) {
    forall i: string, j: string :: i in texts && j in texts && env.hashOf(i) == env.hashOf(j) ==> i == j
  }

  /** Only these invoice texts are ever received. */
  ghost predicate ReceivesOnly(es: seq<Event>, texts: iset<string>) {
    forall k :: 0 <= k < |es| && es[k].Receive? ==> es[k].invoice in texts
  }

  ghost predicate StoredIn(s: State, texts: iset<string>) {
    forall id :: id in s.mappings ==> s.mappings[id].invoice in texts
  }

  lemma {:induction false} RunStaysIn(env: Env, s: State, es: seq<Event>, texts: iset<string>)
    requires StoredIn(s, texts) && ReceivesOnly(es, texts)
    ensures StoredIn(Run(env, s, es), texts)
    decreases |es|
  {
    if es != [] {
      if es[0].Go? && es[0].id in s.mappings {
        VisitSameRows(env, s, es[0].id, es[0].answer);
      }
      assert es[0].Receive? ==> es[0].invoice in texts;
      assert forall k :: 0 <= k < |es[1..]| ==> es[1..][k] == es[k + 1];
      RunStaysIn(env, Exec(env, s, es[0]), es[1..], texts);
    }
  }

  /** The store takes every write. */
  ghost predicate Stores(es: seq<Event>) {
    forall k :: 0 <= k < |es| && es[k].Go? ==> es[k].answer.stored
  }

  lemma {:induction false} StoresKeepsFirstSends(env: Env, s: State, es: seq<Event>)
    requires Stores(es)
    ensures KeepsFirstSends(env, s, es)
    decreases |es|
  {
    if es != [] {
      assert es[0].Go? ==> es[0].answer.stored;
      assert forall k :: 0 <= k < |es[1..]| ==> es[1..][k] == es[k + 1];
      StoresKeepsFirstSends(env, Exec(env, s, es[0]), es[1..]);
    }
  }

  /** Invoices are unique by text, not by payment hash: two texts of one invoice get two
      mappings, and the second one's first attempt does not ask the node before it sends. */
  lemma SharedHashSendsTwice(env: Env, i: string, j: string) returns (es: seq<Event>)
    requires i != j && env.hashOf(i) == env.hashOf(j)
    ensures ReceivesOnly(es, iset{i, j}) && Stores(es) && !SendsIdle(Run(env, START, es))
  {
    var a := Answer(Some(Settled), true, true, true, Initiated, true, true);
    var s1 := Exec(env, START, Receive(1, i, None));
    assert !HasInvoice(s1, j);
    var s2 := Exec(env, s1, Receive(2, j, None));
    var s3 := Exec(env, s2, Go(1, a));
    assert s3.node == map[env.hashOf(i) := InFlight] && s3.mappings[2] == s2.mappings[2] && s3.now == 0 && |s3.sends| == 1;
    var s4 := Exec(env, s3, Go(2, a));
    assert Busy(s4.sends[1].held);
    es := [Receive(1, i, None), Receive(2, j, None), Go(1, a), Go(2, a)];
    RunFour(env, START, Receive(1, i, None), Receive(2, j, None), Go(1, a), Go(2, a));
  }

  lemma RunFour(env: Env, s: State, a: Event, b: Event, c: Event, d: Event)
    ensures Run(env, s, [a, b, c, d]) == Exec(env, Exec(env, Exec(env, Exec(env, s, a), b), c), d)
  {
    assert [a, b, c, d][1..] == [b, c, d] && [b, c, d][1..] == [c, d] && [c, d][1..] == [d] && [d][1..] == [];
    var s4 := Exec(env, Exec(env, Exec(env, Exec(env, s, a), b), c), d);
    assert Run(env, s4, []) == s4;
    assert Run(env, Exec(env, Exec(env, Exec(env, s, a), b), c), [d]) == s4;
    assert Run(env, Exec(env, Exec(env, s, a), b), [c, d]) == s4;
  }

  /** Whatever invoice texts a service receives: no run whose writes are taken ever sends while
      the node is busy with the hash, exactly when no two of those texts share a payment hash. */
  lemma DeliveryIsSafeIff(env: Env, texts: iset<string>)
    requires Decodes(env)
    ensures (forall es: seq<Event> :: ReceivesOnly(es, texts) && Stores(es) ==> SendsIdle(Run(env, START, es)))
            <==> OneTextPerHash(env, texts)
  {
    if OneTextPerHash(env, texts) {
      forall es: seq<Event> | ReceivesOnly(es, texts) && Stores(es) ensures SendsIdle(Run(env, START, es)) {
        StoresKeepsFirstSends(env, START, es);
        RunKeepsUnique(env, START, es);
        RunStaysIn(env, START, es, texts);
        OnePaymentInFlight(env, es);
      }
    } else {
      var i, j :| i in texts && j in texts && env.hashOf(i) == env.hashOf(j) && i != j;
      var es := SharedHashSendsTwice(env, i, j);
      assert ReceivesOnly(es, texts) && Stores(es) && !SendsIdle(Run(env, START, es));
    }
  }

  // ---------------------------------------------------------------- a guard on the insert

  ghost predicate HasHash(env: Env, s: State, hash: string) {
    exists id :: id in s.mappings && HashOf(env, s, id) == hash
  }

  /** Every receive that gets a mapping finds no stored mapping of its payment hash. */
  ghost predicate GuardedReceives(env: Env, s: State, es: seq<Event>)
    decreases |es|
  {
    es == []
    || ((es[0].Receive? && Exec(env, s, es[0]) != s ==> !HasHash(env, s, env.hashOf(es[0].invoice)))
        && GuardedReceives(env, Exec(env, s, es[0]), es[1..]))
  }

  lemma StepStaysDistinctIff(env: Env, s: State, e: Event)
    requires DistinctHashes(env, s)
    ensures DistinctHashes(env, Exec(env, s, e))
            <==> (e.Receive? && Exec(env, s, e) != s ==> !HasHash(env, s, env.hashOf(e.invoice)))
  {
    var s' := Exec(env, s, e);
    if e.Receive? && s' != s {
      assert HashOf(env, s', e.id) == env.hashOf(e.invoice);
      if HasHash(env, s, env.hashOf(e.invoice)) {
        var k :| k in s.mappings && HashOf(env, s, k) == env.hashOf(e.invoice);
        assert HashOf(env, s', k) == HashOf(env, s', e.id);
      } else {
        forall i, j | i in s'.mappings && j in s'.mappings && i != j ensures HashOf(env, s', i) != HashOf(env, s', j) {
          assert i != e.id ==> HashOf(env, s', i) == HashOf(env, s, i);
          assert j != e.id ==> HashOf(env, s', j) == HashOf(env, s, j);
        }
      }
    } else if e.Go? && e.id in s.mappings {
      VisitSameRows(env, s, e.id, e.answer);
    }
  }

  /** The payment hashes stay distinct exactly when every insert was so guarded. */
  lemma {:induction false} DistinctIffGuarded(env: Env, s: State, es: seq<Event>)
    requires DistinctHashes(env, s)
    ensures DistinctHashes(env, Run(env, s, es)) <==> GuardedReceives(env, s, es)
    decreases |es|
  {
    if es != [] {
      StepStaysDistinctIff(env, s, es[0]);
      if DistinctHashes(env, Exec(env, s, es[0])) {
        DistinctIffGuarded(env, Exec(env, s, es[0]), es[1..]);
      } else if DistinctHashes(env, Run(env, s, es)) {
        EarlierRunIsDistinct(env, Exec(env, s, es[0]), es[1..]);
      }
    }
  }

  /** So a look-up by payment hash before each insert, and no lost write after a first send,
      is all the service lacks. */
  lemma GuardedDeliveryIsSafe(env: Env, es: seq<Event>)
    requires Decodes(env) && GuardedReceives(env, START, es) && KeepsFirstSends(env, START, es)
    ensures SendsIdle(Run(env, START, es))
  {
    DistinctIffGuarded(env, START, es);
    OnePaymentInFlight(env, es);
  }

  // ---------------------------------------------------------------- a lost write

  ghost predicate SafeFrom(env: Env, s: State) {
    forall es: seq<Event> :: GuardedReceives(env, s, es) && KeepsFirstSends(env, s, es) ==> SendsIdle(Run(env, s, es))
  }

  /** When the first payment was started and its record is lost, the same tick's answers send
      it again while it is in flight. */
  lemma LostRecordSendsAgain(env: Env, s: State, id: nat, a: Answer)
    requires Decodes(env) && Inv(env, s) && id in s.mappings && Due(s.mappings[id], s.now) && LosesFirstSend(env, s, id, a)
    ensures !SendsIdle(Visit(env, Visit(env, s, id, a), id, a.(stored := true)))
  {
    var s1, b := Visit(env, s, id, a), a.(stored := true);
    assert RowInv(env, s, id) && !Busy(Held(s.node, HashOf(env, s, id)));
    assert Visited(env, s, id, a) == Start(env, s, id, a) && a.decodes && a.deliverable;
    var s2 := Visit(env, s1, id, b);
    assert s2 == Start(env, s1, id, b);
    assert s2.sends[|s1.sends|] == Send(id, HashOf(env, s, id), Held(s1.node, HashOf(env, s, id)));
  }

  /** From the empty service, one invoice text, and the write after its first send lost: the
      next visit starts a second payment. */
  lemma FirstRecordIsLost(env: Env, invoice: string) returns (es: seq<Event>)
    requires Decodes(env)
    ensures GuardedReceives(env, START, es) && !SendsIdle(Run(env, START, es))
  {
    var a := Answer(Some(Settled), true, true, true, Initiated, true, false);
    var s1 := Exec(env, START, Receive(1, invoice, None));
    var s2 := Exec(env, s1, Go(1, a));
    assert s1.mappings == map[1 := Mapping(invoice, PendingRgb, "", 0, None, None)] && Inv(env, s1);
    LostRecordSendsAgain(env, s1, 1, a);
    var s3 := Exec(env, s2, Go(1, a.(stored := true)));
    es := [Receive(1, invoice, None), Go(1, a), Go(1, a.(stored := true)), Wait(0)];
    RunFour(env, START, es[0], es[1], es[2], es[3]);
    assert es[1..] == [es[1], es[2], es[3]] && es[1..][1..] == [es[2], es[3]] && es[1..][1..][1..] == [es[3]];
    assert GuardedReceives(env, s3, [es[3]]) && GuardedReceives(env, s2, [es[2], es[3]]);
    assert GuardedReceives(env, s1, [es[1], es[2], es[3]]);
  }

  /** A visit whose write is lost leaves a later payment able to start while one is in flight
      or delivered, exactly when it had just started the mapping's first. */
  lemma LostWriteIsSafeIff(env: Env, s: State, id: nat, a: Answer)
    requires Decodes(env) && Inv(env, s) && DistinctHashes(env, s) && id in s.mappings && Due(s.mappings[id], s.now) && !a.stored
    ensures SafeFrom(env, Visit(env, s, id, a)) <==> !LosesFirstSend(env, s, id, a)
  {
    var s1 := Visit(env, s, id, a);
    VisitSameRows(env, s, id, a);
    if LosesFirstSend(env, s, id, a) {
      LostRecordSendsAgain(env, s, id, a);
      var e := Go(id, a.(stored := true));
      assert [e][1..] == [] && Run(env, Exec(env, s1, e), []) == Exec(env, s1, e);
      assert GuardedReceives(env, s1, [e]) && KeepsFirstSends(env, s1, [e]);
      assert Run(env, s1, [e]) == Visit(env, s1, id, a.(stored := true));
    } else {
      VisitTouches(env, s, id, a);
      VisitIsSafe(env, s, id, a);
      VisitKeeps(env, s, s1, id);
      forall es: seq<Event> | GuardedReceives(env, s1, es) && KeepsFirstSends(env, s1, es) ensures SendsIdle(Run(env, s1, es)) {
        DistinctIffGuarded(env, s1, es);
        RunKeeps(env, s1, es);
      }
    }
  }
}
