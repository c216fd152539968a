/** Relay records and their one mutation: a compare-and-set that writes the outbox job in
    the same transaction. */
module RelayStore {
  import opened Wrappers
  import opened DeadlinePolicy
  import Outbox

  datatype SendState =
    | Quoted | Claimable | OutboundPending | OutboundPaid | OutboundClaimed
    | Settled | Cancelled | Failed
  {
    function Rank(): int {
      match this
      case Quoted => 0
      case Claimable => 1
      case OutboundPending => 2
      case OutboundPaid => 3
      case OutboundClaimed => 4
      case Settled => 5
      case Cancelled => 6
      case Failed => 7
    }

    predicate AtOrBeyond(target: SendState) { Rank() >= target.Rank() }

    predicate Terminal() { Settled? || Cancelled? || Failed? }
  }

  datatype SendRow = SendRow(outboundInvoice: string, status: SendState, deadline: Option<Uint32>,
                             preimage: Option<string>, lastError: Option<string>)

  datatype Update = Update(deadline: Option<Uint32>, preimage: Option<string>, lastError: Option<string>,
                           enqueue: Option<Outbox.Action>)

  const NO_UPDATE := Update(None, None, None, None)

  datatype Db = Db(sends: map<string, SendRow>, jobs: Outbox.Jobs)

  function Over<T>(update: Option<T>, current: Option<T>): Option<T> {
    if update.Some? then update else current
  }

  function RowAfter(row: SendRow, to: SendState, upd: Update): SendRow {
    SendRow(row.outboundInvoice, to, Over(upd.deadline, row.deadline), Over(upd.preimage, row.preimage),
            Over(upd.lastError, row.lastError))
  }

  predicate CanAdvance(db: Db, hash: string, from: set<SendState>) {
    hash in db.sends && db.sends[hash].status in from
  }

  function Advance(db: Db, hash: string, from: set<SendState>, to: SendState, upd: Update, now: int): Db {
    if !CanAdvance(db, hash, from) then db
    else Db(db.sends[hash := RowAfter(db.sends[hash], to, upd)],
            if upd.enqueue.Some? then Outbox.Enqueued(db.jobs, Outbox.JobKey(hash, upd.enqueue.value), now) else db.jobs)
  }

  function Insert(db: Db, hash: string, outboundInvoice: string): Db {
    if hash in db.sends then db
    else db.(sends := db.sends[hash := SendRow(outboundInvoice, Quoted, None, None, None)])
  }

  datatype StoreError = NotFound | NoSourceState | Duplicate | Unavailable

  class SendStore {
    var sends: map<string, SendRow>
    var jobs: Outbox.Jobs

    function Value(): Db
      reads this
    {
      Db(sends, jobs)
    }

    constructor ()
      ensures Value() == Db(map[], map[])
    {
      sends, jobs := map[], map[];
    }

    method InsertLightningSend(hash: string, outboundInvoice: string) returns (r: Result<(), StoreError>)
      modifies this
      ensures Value() == Insert(old(Value()), hash, outboundInvoice)
      ensures r.Ok? <==> hash !in old(sends)
    {
      if hash in sends {
        return Err(Duplicate);
      }
      sends := sends[hash := SendRow(outboundInvoice, Quoted, None, None, None)];
      return Ok(());
    }

    /** `up` tells whether the database answers this call. */
    method LoadLightningSend(hash: string, up: bool) returns (r: Result<SendRow, StoreError>)
      ensures r == if !up then Err(Unavailable) else if hash in sends then Ok(sends[hash]) else Err(NotFound)
    {
      if !up {
        return Err(Unavailable);
      }
      if hash in sends {
        return Ok(sends[hash]);
      }
      return Err(NotFound);
    }

    /** Moves the record only from one of the given states, and reports whether it did. */
    method AdvanceLightningSend(hash: string, from: seq<SendState>, to: SendState, upd: Update, now: int, up: bool)
      returns (r: Result<bool, StoreError>)
      modifies this
      ensures from == [] ==> r == Err(NoSourceState) && Value() == old(Value())
      ensures from != [] && !up ==> r == Err(Unavailable) && Value() == old(Value())
      ensures from != [] && up ==>
                && Value() == Advance(old(Value()), hash, (set x | x in from), to, upd, now)
                && r == Ok(CanAdvance(old(Value()), hash, (set x | x in from)))
    {
      if from == [] {
        return Err(NoSourceState);
      }
      if !up {
        return Err(Unavailable);
      }
      if hash !in sends || sends[hash].status !in from {
        return Ok(false);
      }
      var row := sends[hash].(status := to);
      if upd.deadline.Some? {
        row := row.(deadline := upd.deadline);
      }
      if upd.preimage.Some? {
        row := row.(preimage := upd.preimage);
      }
      if upd.lastError.Some? {
        row := row.(lastError := upd.lastError);
      }
      sends := sends[hash := row];
      if upd.enqueue.Some? {
        var key := Outbox.JobKey(hash, upd.enqueue.value);
        if key !in jobs {
          jobs := jobs[key := Outbox.Job(|jobs| + 1, Outbox.Pending, 0, now, None)];
        }
      }
      return Ok(true);
    }
  }
}
