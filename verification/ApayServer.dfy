/** The state transformers behind the upload, callback and webhook handlers, and what every
    run of them keeps. */
module ApayServer {
  import opened Wrappers
  import opened Hex
  import opened ApayMerkle
  import opened ApayPool
  import opened Inv = ApayInvoice

  // ---------------------------------------------------------------- transactions

  function OrderOf(db: Db, peer: string): Order {
    if peer in db.orders then db.orders[peer] else Order(None, None)
  }

  /** A batch upload, given the highest index the order's pool holds. */
  function Upload(sha: Sha, db: Db, req: UploadRequest, highest: int): Result<(Db, UploadResponse), OrderError> {
    if req.peer == "" then Err(InvalidHashBatch)
    else if req.version != PROTOCOL_VERSION then Err(UnsupportedVersion)
    else if |req.hashes| == 0 || |req.hashes| > BATCH_MAX_SIZE then Err(InvalidHashBatch)
    else match ParseBatch(req.hashes)
      case None => Err(InvalidHashBatch)
      case Some(hashes) =>
        ParsedIsConsecutive(req.hashes);
        if req.batch.Some? && !CommitmentValid(sha, req.peer, req.batch.value, hashes) then Err(InvalidHashBatch)
        else
          var order := OrderOf(db, req.peer);
          match Merge(db.pool, req.peer, AcceptedThrough(order), highest, hashes, BatchIdOf(req))
          case Err(e) => Err(e)
          case Ok(m) =>
            Ok((Db(db.orders[req.peer := order.(acceptedThrough := Some(m.acceptedThrough))], m.pool, db.invoices,
                   if req.batch.Some? then Persisted(db.batches, req.peer, req.batch.value) else db.batches),
                UploadResponse(m.acceptedThrough, m.acceptedThrough + 1)))
  }

  function BatchIdOf(req: UploadRequest): Option<string> {
    if req.batch.Some? then Some(req.batch.value.batchId) else None
  }

  function Current(o: Order): int {
    if o.currentSlot.Some? && o.currentSlot.value > 0 then o.currentSlot.value else 0
  }

  predicate IsAvailable(pool: map<Key, PoolRow>, k: Key) {
    k in pool && pool[k].status == PoolStatus.Available
  }

  /** The answer to "lowest available index of this order". */
  ghost predicate IsLowestAvailable(pool: map<Key, PoolRow>, peer: string, answer: Option<int>) {
    match answer
    case None => forall i :: !IsAvailable(pool, Key(peer, i))
    case Some(i) => IsAvailable(pool, Key(peer, i)) && forall j :: IsAvailable(pool, Key(peer, j)) ==> i <= j
  }

  /** Reserves the lowest available hash for the slot after the current one. Inserting the
      row fails when that slot is already taken. */
  function ReserveSlot(db: Db, peer: string, amountMsat: nat, lowest: Option<int>): Result<(Db, Key), OrderError>
    requires lowest.Some? ==> IsAvailable(db.pool, Key(peer, lowest.value))
  {
    if peer == "" then Err(EmptyPeer)
    else if lowest == None then Err(PoolEmpty)
    else
      var order := OrderOf(db, peer);
      var slot, entry := Key(peer, Current(order) + 1), Key(peer, lowest.value);
      if slot in db.invoices then Err(UniqueViolation)
      else
        var row := Invoice(lowest.value, db.pool[entry].paymentHash, amountMsat, Status.Reserved, None, None, None, None);
        Ok((db.(orders := db.orders[peer := order],
                pool := db.pool[entry := db.pool[entry].(status := PoolStatus.Reserved)],
                invoices := db.invoices[slot := row]), slot))
  }

  function SetPoolStatus(pool: map<Key, PoolRow>, k: Key, status: PoolStatus): map<Key, PoolRow> {
    if k in pool then pool[k := pool[k].(status := status)] else pool
  }

  function FinalizeSlot(db: Db, slot: Key, invoice: string): Result<Db, OrderError> {
    if invoice == "" then Err(WrongState)
    else if slot !in db.invoices then Err(OrderError.NotFound)
    else
      var row := db.invoices[slot];
      if row.status == Failed then Err(WrongState)
      else if row.inboundInvoice.Some? && row.inboundInvoice != Some("") && row.inboundInvoice != Some(invoice)
              && row.status == Active then Err(WrongState)
      else
        Ok(db.(invoices := db.invoices[slot := row.(inboundInvoice := Some(invoice), status := Active)],
               pool := SetPoolStatus(db.pool, Key(slot.peer, row.hashIndex), Consumed),
               orders := if slot.peer in db.orders
                         then db.orders[slot.peer := db.orders[slot.peer].(currentSlot := Some(slot.n))] else db.orders))
  }

  function ReleaseSlot(db: Db, slot: Key): Result<Db, OrderError> {
    if slot !in db.invoices then Err(OrderError.NotFound)
    else
      var row := db.invoices[slot];
      if row.status == Active then Err(WrongState)
      else if row.status == Failed then Ok(db)
      else
        Ok(db.(invoices := db.invoices[slot := row.(status := Failed)],
               pool := SetPoolStatus(db.pool, Key(slot.peer, row.hashIndex), PoolStatus.Available)))
  }

  /** A conditional status update of every row that carries the payment hash. */
  function MarkByHash(sha: ShaHex, db: Db, paymentHash: string, m: Mark): Db {
    db.(invoices := map k | k in db.invoices ::
          if db.invoices[k].paymentHash == paymentHash then MarkRow(sha, db.invoices[k], m) else db.invoices[k])
  }

  // ---------------------------------------------------------------- runs

  /** The store together with the reservations that callback handlers still hold. A handler
      reserves, asks the node for an invoice, and then finalizes or releases once, or dies. */
  datatype Server = Server(db: Db, open: set<Key>)

  datatype Op =
    | OpUpload(req: UploadRequest)
    | OpReserve(peer: string, amountMsat: nat)
    | OpFinalize(slot: Key, invoice: string)
    | OpRelease(slot: Key)
    | OpAbandon(slot: Key)
    | OpMark(paymentHash: string, mark: Mark)

  datatype Hashes = Hashes(sha: Sha, shaHex: ShaHex)

  lemma HighestExists(pool: map<Key, PoolRow>, peer: string)
    ensures exists h :: IsHighest(pool, peer, h)
  {
    var h := 0;
    var rest := pool.Keys;
    while rest != {}
      invariant rest <= pool.Keys && h >= 0 && (h > 0 ==> Key(peer, h) in pool)
      invariant forall i :: Key(peer, i) in pool.Keys - rest ==> i <= h
      decreases rest
    {
      var k :| k in rest;
      if k.peer == peer && k.n > h {
        h := k.n;
      }
      rest := rest - {k};
    }
    assert IsHighest(pool, peer, h);
  }

  lemma LowestExists(pool: map<Key, PoolRow>, peer: string)
    ensures exists a :: IsLowestAvailable(pool, peer, a)
  {
    var best: Option<int> := None;
    var rest := pool.Keys;
    while rest != {}
      invariant rest <= pool.Keys
      invariant best.Some? ==> IsAvailable(pool, Key(peer, best.value))
      invariant forall i :: IsAvailable(pool, Key(peer, i)) && Key(peer, i) !in rest ==> best.Some? && best.value <= i
      decreases rest
    {
      var k :| k in rest;
      if k.peer == peer && IsAvailable(pool, k) && (best == None || k.n < best.value) {
        best := Some(k.n);
      }
      rest := rest - {k};
    }
    assert IsLowestAvailable(pool, peer, best);
  }

  ghost function Highest(pool: map<Key, PoolRow>, peer: string): (h: int)
    ensures IsHighest(pool, peer, h)
  {
    HighestExists(pool, peer);
    var h :| IsHighest(pool, peer, h);
    h
  }

  ghost function Lowest(pool: map<Key, PoolRow>, peer: string): (a: Option<int>)
    ensures IsLowestAvailable(pool, peer, a)
  {
    LowestExists(pool, peer);
    var a :| IsLowestAvailable(pool, peer, a);
    a
  }

  ghost function UploadResult(h: Hashes, db: Db, req: UploadRequest): Result<(Db, UploadResponse), OrderError> {
    Upload(h.sha, db, req, Highest(db.pool, req.peer))
  }

  ghost function ReserveResult(db: Db, peer: string, amountMsat: nat): Result<(Db, Key), OrderError> {
    ReserveSlot(db, peer, amountMsat, Lowest(db.pool, peer))
  }

  ghost function Exec(h: Hashes, s: Server, op: Op): Server {
    match op
    case OpUpload(req) =>
      (match UploadResult(h, s.db, req) case Ok(r) => s.(db := r.0) case Err(_) => s)
    case OpReserve(peer, amount) =>
      (match ReserveResult(s.db, peer, amount) case Ok(r) => Server(r.0, s.open + {r.1}) case Err(_) => s)
    case OpFinalize(slot, invoice) =>
      if slot !in s.open then s
      else (match FinalizeSlot(s.db, slot, invoice) case Ok(db) => Server(db, s.open - {slot}) case Err(_) => s.(open := s.open - {slot}))
    case OpRelease(slot) =>
      if slot !in s.open then s
      else (match ReleaseSlot(s.db, slot) case Ok(db) => Server(db, s.open - {slot}) case Err(_) => s.(open := s.open - {slot}))
    case OpAbandon(slot) => s.(open := s.open - {slot})
    case OpMark(hash, m) =>
      if m.MarkInboundCancelled? || m.MarkOutboundCancelled? then s // nothing calls these two
      else s.(db := MarkByHash(h.shaHex, s.db, hash, m))
  }

  ghost function Run(h: Hashes, s: Server, ops: seq<Op>): Server
    decreases |ops|
  {
    if ops == [] then s else Run(h, Exec(h, s, ops[0]), ops[1..])
  }

  const EMPTY := Server(Db(map[], map[], map[], map[]), {})
}
