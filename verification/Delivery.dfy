/** Delivery of a lightning receive: once its RGB leg has settled, cron ticks pay the
    receiver's invoice, read the outcome back from the node, and retry with a backoff. */
module Delivery {
  import opened Wrappers
  import opened DeadlinePolicy
  import DeliveryBackoff

  datatype Status = PendingRgb | Delivering | Completed | Failed | Expired

  /** A row of the mapping table; "" is a payment hash not known yet. */
  datatype Mapping = Mapping(invoice: string, status: Status, paymentHash: string, attempts: nat,
                             nextAttemptAt: Option<int>, expiresAt: Option<int>)

  datatype Update = Update(status: Status, paymentHash: Option<string>, attempts: Option<nat>, nextAttemptAt: Option<int>)

  /** What the node holds for an outbound payment; a hash it never saw is absent. */
  datatype NodePayment = InFlight | Succeeded | PaymentFailed

  /** One call of the node's sendpayment, with what the node held for the hash then. */
  datatype Send = Send(id: nat, hash: string, held: Option<NodePayment>)

  datatype State = State(mappings: map<nat, Mapping>, now: int, node: map<string, NodePayment>, sends: seq<Send>)

  datatype RgbStatus = Waiting | Settled | RgbFailed | RgbExpired

  /** A send whose answer was lost has either reached the node or never will. */
  datatype SendAnswer = Initiated | ReportedFailed | LostAfterStart | LostBeforeStart

  /** What the node answers during one visit, and whether the store takes its one write. */
  datatype Answer = Answer(rgb: Option<RgbStatus>, decodes: bool, deliverable: bool, statusKnown: bool,
                           send: SendAnswer, returnsHash: bool, stored: bool)

  datatype Env = Env(retryBase: Int64, retryMax: Int64, hashOf: string -> string)

  function Held(node: map<string, NodePayment>, hash: string): Option<NodePayment> {
    if hash in node then Some(node[hash]) else None
  }

  predicate Busy(held: Option<NodePayment>) {
    held == Some(InFlight) || held == Some(Succeeded)
  }

  /** A node already busy with a hash ignores another send of it. */
  function NodeAfter(node: map<string, NodePayment>, hash: string, a: SendAnswer): map<string, NodePayment> {
    if Busy(Held(node, hash)) then node
    else match a
      case Initiated => node[hash := InFlight]
      case LostAfterStart => node[hash := InFlight]
      case ReportedFailed => node[hash := PaymentFailed]
      case LostBeforeStart => node
  }

  function Over<T>(update: Option<T>, current: T): T {
    match update case Some(v) => v case None => current
  }

  /** Every field the update leaves out keeps its value, but the next attempt time is erased. */
  function Updated(m: Mapping, u: Update): Mapping {
    m.(status := u.status, paymentHash := Over(u.paymentHash, m.paymentHash),
       attempts := Over(u.attempts, m.attempts), nextAttemptAt := u.nextAttemptAt)
  }

  function Put(s: State, id: nat, u: Update): State
    requires id in s.mappings
  {
    s.(mappings := s.mappings[id := Updated(s.mappings[id], u)])
  }

  function BackoffTime(env: Env, now: int, attempts: nat): int {
    now + DeliveryBackoff.Backoff(env.retryBase, env.retryMax, attempts)
  }

  function Scheduled(env: Env, s: State, id: nat, hash: string): State
    requires id in s.mappings
  {
    var attempts := s.mappings[id].attempts + 1;
    Put(s, id, Update(Delivering, if hash != "" then Some(hash) else None, Some(attempts),
                      Some(BackoffTime(env, s.now, attempts))))
  }

  /** Sends, and parks the mapping until `next` or schedules a retry. */
  function Sending(env: Env, s: State, id: nat, fallback: string, next: int, a: Answer): State
    requires id in s.mappings
  {
    var invoiceHash := env.hashOf(s.mappings[id].invoice);
    var sent := s.(node := NodeAfter(s.node, invoiceHash, a.send),
                   sends := s.sends + [Send(id, invoiceHash, Held(s.node, invoiceHash))]);
    var hash := if a.returnsHash then invoiceHash else fallback;
    if a.send.Initiated?
    then Put(sent, id, Update(Delivering, Some(hash), Some(s.mappings[id].attempts + 1), Some(next)))
    else Scheduled(env, sent, id, hash)
  }

  function Start(env: Env, s: State, id: nat, a: Answer): State
    requires id in s.mappings
  {
    var decodedHash := env.hashOf(s.mappings[id].invoice);
    if !a.decodes then Scheduled(env, s, id, "")
    else if !a.deliverable then Scheduled(env, s, id, decodedHash)
    else Sending(env, s, id, decodedHash, s.now + env.retryBase, a)
  }

  function Retry(env: Env, s: State, id: nat, a: Answer): State
    requires id in s.mappings
  {
    var m := s.mappings[id];
    if !a.decodes || !a.deliverable then Scheduled(env, s, id, m.paymentHash)
    else Sending(env, s, id, m.paymentHash, BackoffTime(env, s.now, m.attempts + 1), a)
  }

  /** A hash the node never saw counts as failed. */
  function Poll(env: Env, s: State, id: nat, a: Answer): State
    requires id in s.mappings
  {
    var m := s.mappings[id];
    if m.paymentHash == "" then Start(env, s, id, a)
    else if !a.statusKnown then Scheduled(env, s, id, m.paymentHash)
    else match Held(s.node, m.paymentHash)
      case Some(Succeeded) => Put(s, id, Update(Completed, None, None, None))
      case Some(InFlight) => Put(s, id, Update(Delivering, None, None, Some(s.now + env.retryBase)))
      case _ => Retry(env, s, id, a)
  }

  predicate Due(m: Mapping, now: int) {
    (m.status.PendingRgb? || m.status.Delivering?) && (m.nextAttemptAt.Some? ==> m.nextAttemptAt.value <= now)
  }

  function WithStatus(s: State, id: nat, status: Status): State
    requires id in s.mappings
  {
    s.(mappings := s.mappings[id := s.mappings[id].(status := status)])
  }

  /** A write the store does not take is given up without a trace. */
  function Written(s: State, s': State, stored: bool): State {
    if stored then s' else s'.(mappings := s.mappings)
  }

  /** What a tick does with one mapping of its list. */
  function Visit(env: Env, s: State, id: nat, a: Answer): State
    requires id in s.mappings
  {
    Written(s, Visited(env, s, id, a), a.stored)
  }

  /** The same with its write taken. */
  function Visited(env: Env, s: State, id: nat, a: Answer): State
    requires id in s.mappings
  {
    var m := s.mappings[id];
    if m.expiresAt.Some? && s.now > m.expiresAt.value then WithStatus(s, id, Expired)
    else if a.rgb == None then s
    else if m.status.Delivering? then Poll(env, s, id, a)
    else match a.rgb.value
      case Settled => Start(env, s, id, a)
      case RgbFailed => WithStatus(s, id, Failed)
      case RgbExpired => WithStatus(s, id, Expired)
      case Waiting => s
  }

  /** A tick goes through the list it read at its start. */
  function VisitAll(env: Env, s: State, ids: seq<nat>, answers: nat -> Answer): State
    requires forall i :: 0 <= i < |ids| ==> ids[i] in s.mappings
    decreases |ids|
  {
    if ids == [] then s
    else
      var s1 := Visit(env, s, ids[0], answers(ids[0]));
      assert forall i :: 0 <= i < |ids[1..]| ==> ids[1..][i] == ids[i + 1];
      VisitAll(env, s1, ids[1..], answers)
  }

  /** A visit neither adds nor removes mappings, nor changes an invoice or the clock. */
  predicate SameRows(s: State, s': State) {
    && s'.mappings.Keys == s.mappings.Keys && s'.now == s.now
    && forall id :: id in s.mappings ==> s'.mappings[id].invoice == s.mappings[id].invoice
  }

  lemma StartSameRows(env: Env, s: State, id: nat, a: Answer)
    requires id in s.mappings
    ensures SameRows(s, Start(env, s, id, a))
  {}

  lemma RetrySameRows(env: Env, s: State, id: nat, a: Answer)
    requires id in s.mappings
    ensures SameRows(s, Retry(env, s, id, a))
  {}

  lemma PollSameRows(env: Env, s: State, id: nat, a: Answer)
    requires id in s.mappings
    ensures SameRows(s, Poll(env, s, id, a))
  {
    if s.mappings[id].paymentHash == "" {
      StartSameRows(env, s, id, a);
    } else if a.statusKnown && !Busy(Held(s.node, s.mappings[id].paymentHash)) {
      RetrySameRows(env, s, id, a);
    }
  }

  lemma VisitedSameRows(env: Env, s: State, id: nat, a: Answer)
    requires id in s.mappings
    ensures SameRows(s, Visited(env, s, id, a))
  {
    if s.mappings[id].status.Delivering? {
      PollSameRows(env, s, id, a);
    } else {
      StartSameRows(env, s, id, a);
    }
  }

  lemma VisitSameRows(env: Env, s: State, id: nat, a: Answer)
    requires id in s.mappings
    ensures SameRows(s, Visit(env, s, id, a))
  {
    VisitedSameRows(env, s, id, a);
  }

  /** The list a tick works through: the due mappings by ascending id, cut at the limit. */
  ghost predicate IsPendingList(mappings: map<nat, Mapping>, now: int, limit: nat, ids: seq<nat>) {
    && |ids| <= limit
    && (forall i :: 0 <= i < |ids| ==> ids[i] in mappings && Due(mappings[ids[i]], now))
    && (forall i, j :: 0 <= i < j < |ids| ==> ids[i] < ids[j])
    && (forall id :: id in mappings && Due(mappings[id], now) && id !in ids ==>
          |ids| == limit && forall i :: 0 <= i < |ids| ==> ids[i] < id)
  }

  class DeliveryCron {
    var mappings: map<nat, Mapping>
    var lastId: nat
    var now: int
    var node: map<string, NodePayment>
    var sends: seq<Send>

    ghost predicate Valid()
      reads this
    {
      forall id :: id in mappings ==> id <= lastId
    }

    function Value(): State
      reads this
    {
      State(mappings, now, node, sends)
    }

    constructor (start: int)
      ensures Valid() && Value() == State(map[], start, map[], [])
    {
      mappings, lastId, now, node, sends := map[], 0, start, map[], [];
    }

    /** A second mapping for the same invoice text is refused. */
    method InsertLightningReceive(invoice: string, expiresAt: Option<int>) returns (id: Option<nat>)
      requires Valid()
      modifies this
      ensures Valid()
      ensures id == None <==> exists k :: k in old(mappings) && old(mappings)[k].invoice == invoice
      ensures id == None ==> Value() == old(Value())
      ensures id.Some? ==>
                && id.value !in old(mappings)
                && Value() == old(Value()).(mappings := old(mappings)[id.value := Mapping(invoice, PendingRgb, "", 0, None, expiresAt)])
    {
      var k := 0;
      while k <= lastId
        invariant forall j :: j in mappings && j < k ==> mappings[j].invoice != invoice
        decreases lastId + 1 - k
      {
        if k in mappings && mappings[k].invoice == invoice {
          return None;
        }
        k := k + 1;
      }
      lastId := lastId + 1;
      mappings := mappings[lastId := Mapping(invoice, PendingRgb, "", 0, None, expiresAt)];
      return Some(lastId);
    }

    method ListLightningPending(limit: nat) returns (ids: seq<nat>)
      requires Valid()
      ensures IsPendingList(mappings, now, limit, ids)
    {
      ids := [];
      var id := 0;
      while id <= lastId && |ids| < limit
        invariant |ids| <= limit
        invariant forall i :: 0 <= i < |ids| ==> ids[i] in mappings && Due(mappings[ids[i]], now) && ids[i] < id
        invariant forall i, j :: 0 <= i < j < |ids| ==> ids[i] < ids[j]
        invariant forall k :: k in mappings && Due(mappings[k], now) && k < id ==> k in ids
        decreases lastId + 1 - id
      {
        if id in mappings && Due(mappings[id], now) {
          ids := ids + [id];
        }
        id := id + 1;
      }
    }

    /** `up` tells whether the store takes the write. */
    method UpdateLightningDelivery(id: nat, u: Update, up: bool)
      requires id in mappings
      modifies this`mappings
      ensures Value() == Written(old(Value()), Put(old(Value()), id, u), up)
    {
      if !up {
        return;
      }
      var m := mappings[id].(status := u.status, nextAttemptAt := u.nextAttemptAt);
      if u.paymentHash.Some? {
        m := m.(paymentHash := u.paymentHash.value);
      }
      if u.attempts.Some? {
        m := m.(attempts := u.attempts.value);
      }
      mappings := mappings[id := m];
    }

    method SendLnByInvoice(env: Env, id: nat, a: Answer) returns (hash: string, initiated: bool)
      requires id in mappings
      modifies this`node, this`sends
      ensures var h := env.hashOf(mappings[id].invoice);
              && node == NodeAfter(old(node), h, a.send) && sends == old(sends) + [Send(id, h, Held(old(node), h))]
              && hash == (if a.returnsHash then h else "")
      ensures initiated == a.send.Initiated?
    {
      var h := env.hashOf(mappings[id].invoice);
      sends := sends + [Send(id, h, Held(node, h))];
      node := NodeAfter(node, h, a.send);
      hash := if a.returnsHash then h else "";
      initiated := a.send.Initiated?;
    }

    method UpdateLightningStatus(id: nat, status: Status, up: bool)
      requires id in mappings
      modifies this`mappings
      ensures Value() == Written(old(Value()), WithStatus(old(Value()), id, status), up)
    {
      if up {
        mappings := mappings[id := mappings[id].(status := status)];
      }
    }

    method ScheduleDeliveryRetry(env: Env, id: nat, hash: string, up: bool)
      requires id in mappings
      modifies this`mappings
      ensures Value() == Written(old(Value()), Scheduled(env, old(Value()), id, hash), up)
    {
      var attempts := mappings[id].attempts + 1;
      var delay := DeliveryBackoff.Compute(env.retryBase, env.retryMax, attempts);
      var u := Update(Delivering, None, Some(attempts), Some(now + delay));
      if hash != "" {
        u := u.(paymentHash := Some(hash));
      }
      UpdateLightningDelivery(id, u, up);
    }

    method StartLightningDelivery(env: Env, id: nat, a: Answer)
      requires id in mappings && env.hashOf(mappings[id].invoice) != ""
      modifies this`mappings, this`node, this`sends
      ensures Value() == Written(old(Value()), Start(env, old(Value()), id, a), a.stored)
    {
      if !a.decodes {
        ScheduleDeliveryRetry(env, id, "", a.stored);
        return;
      }
      var decodedHash := env.hashOf(mappings[id].invoice);
      if !a.deliverable {
        ScheduleDeliveryRetry(env, id, decodedHash, a.stored);
        return;
      }
      var attempts := mappings[id].attempts + 1;
      var hash, initiated := SendLnByInvoice(env, id, a);
      if hash == "" {
        hash := decodedHash;
      }
      if !initiated {
        ScheduleDeliveryRetry(env, id, hash, a.stored);
        return;
      }
      UpdateLightningDelivery(id, Update(Delivering, Some(hash), Some(attempts), Some(now + env.retryBase)), a.stored);
    }

    method RetryLightningDelivery(env: Env, id: nat, a: Answer)
      requires id in mappings && env.hashOf(mappings[id].invoice) != ""
      modifies this`mappings, this`node, this`sends
      ensures Value() == Written(old(Value()), Retry(env, old(Value()), id, a), a.stored)
    {
      if !a.decodes {
        ScheduleDeliveryRetry(env, id, mappings[id].paymentHash, a.stored);
        return;
      }
      if !a.deliverable {
        ScheduleDeliveryRetry(env, id, mappings[id].paymentHash, a.stored);
        return;
      }
      var attempts := mappings[id].attempts + 1;
      var hash, initiated := SendLnByInvoice(env, id, a);
      if hash == "" {
        hash := mappings[id].paymentHash;
      }
      if !initiated {
        ScheduleDeliveryRetry(env, id, hash, a.stored);
        return;
      }
      var delay := DeliveryBackoff.Compute(env.retryBase, env.retryMax, attempts);
      UpdateLightningDelivery(id, Update(Delivering, Some(hash), Some(attempts), Some(now + delay)), a.stored);
    }

    method PollLightningDelivery(env: Env, id: nat, a: Answer)
      requires id in mappings && env.hashOf(mappings[id].invoice) != ""
      modifies this`mappings, this`node, this`sends
      ensures Value() == Written(old(Value()), Poll(env, old(Value()), id, a), a.stored)
    {
      var hash := mappings[id].paymentHash;
      if hash == "" {
        StartLightningDelivery(env, id, a);
        return;
      }
      if !a.statusKnown {
        ScheduleDeliveryRetry(env, id, hash, a.stored);
        return;
      }
      match Held(node, hash) {
        case Some(Succeeded) => UpdateLightningDelivery(id, Update(Completed, None, None, None), a.stored);
        case Some(InFlight) => UpdateLightningDelivery(id, Update(Delivering, None, None, Some(now + env.retryBase)), a.stored);
        case _ => RetryLightningDelivery(env, id, a);
      }
    }

    method VisitMapping(env: Env, id: nat, a: Answer)
      requires id in mappings && env.hashOf(mappings[id].invoice) != ""
      modifies this`mappings, this`node, this`sends
      ensures Value() == Visit(env, old(Value()), id, a)
    {
      var m := mappings[id];
      if m.expiresAt.Some? && now > m.expiresAt.value {
        UpdateLightningStatus(id, Expired, a.stored);
        return;
      }
      if a.rgb == None {
        return;
      }
      if m.status.Delivering? {
        PollLightningDelivery(env, id, a);
        return;
      }
      match a.rgb.value {
        case Settled => StartLightningDelivery(env, id, a);
        case RgbFailed => UpdateLightningStatus(id, Failed, a.stored);
        case RgbExpired => UpdateLightningStatus(id, Expired, a.stored);
        case Waiting =>
      }
    }

    method MonitorLightningReceive(env: Env, answers: nat -> Answer) returns (ghost ids: seq<nat>)
      requires Valid() && forall id :: id in mappings ==> env.hashOf(mappings[id].invoice) != ""
      modifies this`mappings, this`node, this`sends
      ensures Valid()
      ensures IsPendingList(old(mappings), now, 200, ids)
      ensures Value() == VisitAll(env, old(Value()), ids, answers)
    {
      var recs := ListLightningPending(200);
      ids := recs;
      ghost var start := Value();
      var i := 0;
      while i < |recs|
        invariant 0 <= i <= |recs|
        invariant SameRows(start, Value()) && lastId == old(lastId)
        invariant VisitAll(env, start, recs, answers) == VisitAll(env, Value(), recs[i..], answers)
      {
        assert recs[i..][0] == recs[i] && recs[i..][1..] == recs[i + 1..];
        VisitSameRows(env, Value(), recs[i], answers(recs[i]));
        VisitMapping(env, recs[i], answers(recs[i]));
        i := i + 1;
      }
      assert recs[i..] == [];
    }
  }
}
