/** The hosted-address flow's promises, over every run from an empty service. */
module ApayJobTheorems {
  import opened Wrappers
  import opened DeadlinePolicy
  import opened Outbox
  import opened ApayJobs
  import opened ApayJobRuns
  import Inv = ApayInvoice

  /** No interleaving loses work: until the recipient's invoice is on record the request job
      is unfinished, until it is paid the send job is, and a released preimage is on record,
      matches, and has an unfinished claim job. */
  lemma ApayNeverLosesWork(env: Env, es: seq<Event>, h: string)
    ensures var d := Run(env, IDLE, es).desk;
            && (StatusIs(d, h, Inv.Claimable) || StatusIs(d, h, Inv.OutboundRequested) ==>
                  Undone(d, ReqKey(h)) && d.rows[h].claimDeadline.Some? && d.rows[h].claimDeadline.value > 0)
            && (StatusIs(d, h, Inv.OutboundPending) ==>
                  Undone(d, SendKey(h)) && d.rows[h].outboundInvoice.Some? && d.rows[h].outboundInvoice.value != "")
            && (StatusIs(d, h, Inv.OutboundClaimed) ==>
                  Undone(d, ClaimKey(h)) && d.rows[h].preimage.Some? && env.sha(d.rows[h].preimage.value) == h)
  {
    IdleInv(env);
    RunKeeps(env, IDLE, es);
    assert RowInv(env, Run(env, IDLE, es).desk, Run(env, IDLE, es).claims, h);
  }

  /** A finished job means its row got where the job drives it, and a claimed row's HODL was
      claimed with a preimage of its hash. */
  lemma JobsFinishOnlyWhenDone(env: Env, es: seq<Event>, h: string)
    ensures var s := Run(env, IDLE, es);
            && (JobDone(s.desk, ReqKey(h)) ==> StatusAtOrBeyond(s.desk, h, Inv.OutboundPending))
            && (JobDone(s.desk, SendKey(h)) ==> StatusAtOrBeyond(s.desk, h, Inv.OutboundPaid))
            && (JobDone(s.desk, ClaimKey(h)) ==> StatusIs(s.desk, h, Inv.InboundClaimed))
            && (StatusIs(s.desk, h, Inv.InboundClaimed) ==> ClaimedWithPreimage(env, s.claims, h))
  {
    IdleInv(env);
    RunKeeps(env, IDLE, es);
    assert RowInv(env, Run(env, IDLE, es).desk, Run(env, IDLE, es).claims, h);
  }

  /** Sends of one hash may repeat, but only ever with the one invoice on record for it. */
  lemma SendsAgree(env: Env, es: seq<Event>, i: nat, j: nat)
    requires i < |Run(env, IDLE, es).sends| && j < |Run(env, IDLE, es).sends|
    requires Run(env, IDLE, es).sends[i].hash == Run(env, IDLE, es).sends[j].hash
    ensures Run(env, IDLE, es).sends[i] == Run(env, IDLE, es).sends[j]
  {
    IdleInv(env);
    RunKeeps(env, IDLE, es);
    var s := Run(env, IDLE, es);
    assert s.desk.rows[s.sends[i].hash].outboundInvoice == Some(s.sends[i].invoice);
    assert s.desk.rows[s.sends[j].hash].outboundInvoice == Some(s.sends[j].invoice);
  }

  // ---------------------------------------------------------------- forward only

  lemma StepForward(env: Env, s: System, e: Event)
    requires SystemInv(env, s)
    ensures DeskForward(s.desk, Exec(env, s, e).desk)
  {
    match e
    case HtlcHeld(h, amount, deadline, height) =>
      MarkForward(env, s.desk, h, Inv.MarkClaimable(amount, Some(deadline)), Some(RequestOutboundInvoice), s.now);
    case PaymentSent(h, p) =>
      MarkForward(env, s.desk, h, Inv.MarkOutboundClaimed(p), Some(ClaimInboundInvoice), s.now);
    case Go(w, a) =>
      if w in s.workers && !s.workers[w].Report? {
        assert Ready(env, s, s.workers[w]);
        StepLegal(env, s, s.workers[w], a);
      }
    case _ =>
  }

  lemma ForwardTransitive(a: Desk, b: Desk, c: Desk)
    requires DeskForward(a, b) && DeskForward(b, c)
    ensures DeskForward(a, c)
  {
    forall h | h in a.rows ensures h in c.rows && RowForward(a.rows[h], c.rows[h]) {
      assert RowForward(a.rows[h], b.rows[h]) && RowForward(b.rows[h], c.rows[h]);
    }
  }

  /** Statuses only rise, terminal rows never change, and a recorded deadline, invoice or
      preimage stays. */
  lemma {:induction false} StatusOnlyRises(env: Env, s: System, es: seq<Event>)
    requires SystemInv(env, s)
    ensures DeskForward(s.desk, Run(env, s, es).desk)
    decreases |es|
  {
    if es != [] {
      var next := Exec(env, s, es[0]);
      StepForward(env, s, es[0]);
      StepKeeps(env, s, es[0]);
      StatusOnlyRises(env, next, es[1..]);
      ForwardTransitive(s.desk, next.desk, Run(env, next, es[1..]).desk);
    }
  }

  lemma BeyondIsNotSource(sha: Inv.ShaHex, row: Inv.Invoice, m: Inv.Mark)
    requires row.status.Rank() >= m.To().Rank()
    ensures Inv.MarkOutcome(sha, row, m) != Inv.Transitioned
  {}

  lemma MovedOnce(env: Env, d: Desk, later: Desk, h: string, m: Inv.Mark, job: Option<Action>, now: int, again: int)
    requires MarkTx(env, d, h, m, job, now) != d && DeskForward(MarkTx(env, d, h, m, job, now), later)
    ensures MarkTx(env, later, h, m, job, again) == later
  {
    assert Inv.MarkRow(env.sha, d.rows[h], m).status == m.To();
    assert RowForward(MarkTx(env, d, h, m, job, now).rows[h], later.rows[h]);
    BeyondIsNotSource(env.sha, later.rows[h], m);
  }

  /** A webhook that had its effect can be replayed at any later time and changes nothing. */
  lemma ReplayChangesNothing(env: Env, s: System, e: Event, later: seq<Event>)
    requires SystemInv(env, s) && (e.HtlcHeld? || e.PaymentSent?)
    ensures Exec(env, s, e).desk == s.desk
            || var s' := Run(env, Exec(env, s, e), later); Exec(env, s', e) == s'
  {
    var s' := Run(env, Exec(env, s, e), later);
    if Exec(env, s, e).desk != s.desk {
      StepKeeps(env, s, e);
      StatusOnlyRises(env, Exec(env, s, e), later);
      match e
      case HtlcHeld(h, amount, deadline, height) =>
        MovedOnce(env, s.desk, s'.desk, h, Inv.MarkClaimable(amount, Some(deadline)), Some(RequestOutboundInvoice), s.now, s'.now);
      case PaymentSent(h, p) =>
        MovedOnce(env, s.desk, s'.desk, h, Inv.MarkOutboundClaimed(p), Some(ClaimInboundInvoice), s.now, s'.now);
    }
  }
}
