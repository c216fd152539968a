/** Main results about an order's pool and slots over arbitrary runs. */
module ApayPoolTheorems {
  import opened Wrappers
  import opened ApayMerkle
  import opened ApayPool
  import opened Inv = ApayInvoice
  import opened ApayServer
  import opened ApayRuns

  /** The pool and slot invariant, in the store's own terms. */
  ghost predicate PoolMatchesSlots(db: Db, peer: string) {
    var n := AcceptedThrough(OrderOf(db, peer));
    // indices are exactly 1..accepted_through_index, and at most 400 are unconsumed
    && (forall i :: Key(peer, i) in db.pool <==> 1 <= i <= n)
    && Live(db.pool, peer) <= 400
    // reserved entries are those of rows still reserved, consumed ones those of finalized rows
    && (forall i :: Key(peer, i) in db.pool ==>
          (db.pool[Key(peer, i)].status == PoolStatus.Reserved
           <==> exists t :: Key(peer, t) in db.invoices && db.invoices[Key(peer, t)].hashIndex == i
                            && db.invoices[Key(peer, t)].status == Status.Reserved))
    && (forall i :: Key(peer, i) in db.pool ==>
          (db.pool[Key(peer, i)].status == Consumed
           <==> exists t :: Key(peer, t) in db.invoices && db.invoices[Key(peer, t)].hashIndex == i
                            && db.invoices[Key(peer, t)].inboundInvoice.Some?))
    // at most one row lies above the current slot, and no two rows share a hash
    && (forall t, u | Key(peer, t) in db.invoices && Key(peer, u) in db.invoices ::
          t > Current(OrderOf(db, peer)) && u > Current(OrderOf(db, peer)) ==> t == u)
    && (forall t, u | Key(peer, t) in db.invoices && Key(peer, u) in db.invoices && t != u ::
          db.invoices[Key(peer, t)].paymentHash != db.invoices[Key(peer, u)].paymentHash)
    && (forall t :: Key(peer, t) in db.invoices ==>
          Key(peer, db.invoices[Key(peer, t)].hashIndex) in db.pool
          && db.pool[Key(peer, db.invoices[Key(peer, t)].hashIndex)].paymentHash == db.invoices[Key(peer, t)].paymentHash)
  }

  lemma InvariantMeaning(s: Server, peer: string)
    requires OrderInv(s, peer)
    ensures PoolMatchesSlots(s.db, peer)
  {
    var db := s.db;
    LiveIsTail(s, peer);
    forall t | Key(peer, t) in db.invoices
      ensures 1 <= t <= Count(s, peer) && EntryInv(s, peer, t) && db.invoices[Key(peer, t)].hashIndex == t
    {
      assert EntryInv(s, peer, t);
    }
    forall i | Key(peer, i) in db.pool ensures EntryInv(s, peer, i) {}
  }

  /** Every reachable store matches pool and slots for every order. */
  lemma PoolSlotInvariant(h: Hashes, ops: seq<Op>, peer: string)
    ensures PoolMatchesSlots(Run(h, EMPTY, ops).db, peer)
  {
    EmptyServerInv();
    RunKeepsInv(h, EMPTY, ops);
    assert OrderInv(Run(h, EMPTY, ops), peer);
    InvariantMeaning(Run(h, EMPTY, ops), peer);
  }

  // ---------------------------------------------------------------- uploads

  predicate WellFormed(sha: Sha, req: UploadRequest) {
    && req.peer != "" && req.version == PROTOCOL_VERSION && 0 < |req.hashes| <= BATCH_MAX_SIZE
    && ParseBatch(req.hashes).Some?
    && (ParsedIsConsecutive(req.hashes);
        req.batch.Some? ==> CommitmentValid(sha, req.peer, req.batch.value, ParseBatch(req.hashes).value))
  }

  /** An upload is accepted exactly when it is well-formed and its hashes are either all
      present already or a conflict-free append at the advertised next index that fits. */
  lemma UploadAcceptedIff(h: Hashes, s: Server, req: UploadRequest)
    requires ServerInv(s)
    ensures UploadResult(h, s.db, req).Ok? <==>
              WellFormed(h.sha, req)
              && (|| AllPresent(s.db.pool, req.peer, ParseBatch(req.hashes).value)
                  || Appends(s.db.pool, req.peer, Count(s, req.peer), ParseBatch(req.hashes).value))
  {
    assert OrderInv(s, req.peer);
    if UploadResult(h, s.db, req).Ok? {
      UploadDoes(h, s, req);
    } else if WellFormed(h.sha, req) {
      var hashes, highest := ParseBatch(req.hashes).value, Highest(s.db.pool, req.peer);
      ParsedIsConsecutive(req.hashes);
      HighestIsCount(s, req.peer, highest);
      LiveIsTail(s, req.peer);
      PoolHashesUnique(s, req.peer);
      if AllPresent(s.db.pool, req.peer, hashes) {
        MergeReplay(s.db.pool, req.peer, Count(s, req.peer), highest, hashes, BatchIdOf(req));
      } else if Appends(s.db.pool, req.peer, highest, hashes) {
        MergeAppend(s.db.pool, req.peer, Count(s, req.peer), highest, hashes, BatchIdOf(req));
      }
    }
  }

  /** The pool grew by these hashes and no others, from the order's next index. */
  ghost predicate AppendedExactly(s: Server, s': Server, peer: string, hashes: seq<Entry>, batchId: Option<string>) {
    var next := Count(s, peer) + 1;
    && (forall k :: k in s'.db.pool <==> k in s.db.pool || (k.peer == peer && next <= k.n < next + |hashes|))
    && (forall k :: k in s.db.pool ==> s'.db.pool[k] == s.db.pool[k])
    && (forall i :: 0 <= i < |hashes| ==>
          && hashes[i].hashIndex == next + i && Key(peer, next + i) !in s.db.pool
          && s'.db.pool[Key(peer, next + i)] == PoolRow(hashes[i].paymentHash, PoolStatus.Available, batchId))
  }

  /** An accepted upload extends the pool by exactly its hashes, from the next index the
      order advertised, or changes no entry; a rejected one changes nothing at all. */
  lemma AppendOrNothing(h: Hashes, s: Server, req: UploadRequest)
    requires ServerInv(s)
    ensures var s' := Exec(h, s, OpUpload(req));
            match UploadResult(h, s.db, req)
            case Err(_) => s' == s
            case Ok(r) =>
              var hashes := ParseBatch(req.hashes).value;
              && r.1.nextIndexExpected == Count(s', req.peer) + 1
              && (s'.db.pool == s.db.pool || AppendedExactly(s, s', req.peer, hashes, BatchIdOf(req)))
  {
    if UploadResult(h, s.db, req).Ok? {
      assert OrderInv(s, req.peer);
      UploadDoes(h, s, req);
      var s', hashes := Exec(h, s, OpUpload(req)), ParseBatch(req.hashes).value;
      if !AllPresent(s.db.pool, req.peer, hashes) {
        AppendShape(s, s', req, hashes);
      }
    }
  }

  lemma AppendedKeys(s: Server, s': Server, req: UploadRequest, hashes: seq<Entry>)
    requires OrderInv(s, req.peer) && UploadEffect(s, s'.db, req, hashes)
    requires !AllPresent(s.db.pool, req.peer, hashes)
    ensures forall k :: k in s'.db.pool <==>
              k in s.db.pool || (k.peer == req.peer && Count(s, req.peer) < k.n <= Count(s, req.peer) + |hashes|)
    ensures forall k :: k in s.db.pool ==> s'.db.pool[k] == s.db.pool[k]
  {
    StampedAt(req.peer, hashes, BatchIdOf(req));
    forall k | k in s.db.pool ensures s'.db.pool[k] == s.db.pool[k] {
      assert k.peer == req.peer ==> k == Key(req.peer, k.n) && k.n <= Count(s, req.peer);
    }
  }

  lemma AppendedRow(s: Server, s': Server, req: UploadRequest, hashes: seq<Entry>, i: nat)
    requires OrderInv(s, req.peer) && UploadEffect(s, s'.db, req, hashes)
    requires !AllPresent(s.db.pool, req.peer, hashes) && i < |hashes|
    ensures var k := Key(req.peer, Count(s, req.peer) + 1 + i);
            && hashes[i].hashIndex == k.n && k !in s.db.pool && k in s'.db.pool
            && s'.db.pool[k] == PoolRow(hashes[i].paymentHash, PoolStatus.Available, BatchIdOf(req))
  {
    AppendedEntry(s, s', req, hashes, Count(s, req.peer) + 1 + i);
  }

  lemma AppendShape(s: Server, s': Server, req: UploadRequest, hashes: seq<Entry>)
    requires OrderInv(s, req.peer) && UploadEffect(s, s'.db, req, hashes)
    requires !AllPresent(s.db.pool, req.peer, hashes)
    ensures AppendedExactly(s, s', req.peer, hashes, BatchIdOf(req))
  {
    AppendedKeys(s, s', req, hashes);
    forall i | 0 <= i < |hashes|
      ensures var k := Key(req.peer, Count(s, req.peer) + 1 + i);
              && hashes[i].hashIndex == k.n && k !in s.db.pool && k in s'.db.pool
              && s'.db.pool[k] == PoolRow(hashes[i].paymentHash, PoolStatus.Available, BatchIdOf(req))
    {
      AppendedRow(s, s', req, hashes, i);
    }
  }

  // ---------------------------------------------------------------- entries are permanent

  /** Rows never disappear, and their hash and batch never change. */
  ghost predicate PoolGrows(before: Db, after: Db) {
    && (forall k :: k in before.pool ==>
          k in after.pool && after.pool[k].paymentHash == before.pool[k].paymentHash
          && after.pool[k].batchId == before.pool[k].batchId)
    && (forall b :: b in before.batches ==> b in after.batches && after.batches[b] == before.batches[b])
  }

  lemma StepGrowsPool(h: Hashes, s: Server, op: Op)
    requires ServerInv(s)
    ensures PoolGrows(s.db, Exec(h, s, op).db)
  {
    if op.OpUpload? {
      AppendOrNothing(h, s, op.req);
    }
  }

  lemma {:induction false} RunGrowsPool(h: Hashes, s: Server, ops: seq<Op>)
    requires ServerInv(s)
    ensures PoolGrows(s.db, Run(h, s, ops).db)
    decreases |ops|
  {
    if ops != [] {
      StepGrowsPool(h, s, ops[0]);
      StepKeepsInv(h, s, ops[0]);
      RunGrowsPool(h, Exec(h, s, ops[0]), ops[1..]);
    }
  }

  lemma AcceptedIsPresent(h: Hashes, s: Server, req: UploadRequest)
    requires ServerInv(s) && UploadResult(h, s.db, req).Ok?
    ensures AllPresent(Exec(h, s, OpUpload(req)).db.pool, req.peer, ParseBatch(req.hashes).value)
  {
    assert OrderInv(s, req.peer);
    UploadDoes(h, s, req);
    StampedAt(req.peer, ParseBatch(req.hashes).value, BatchIdOf(req));
  }

  /** Whatever happens after an upload was accepted, sending it again is accepted again and
      changes no pool entry. */
  lemma ResendAlwaysAccepted(h: Hashes, s: Server, req: UploadRequest, later: seq<Op>)
    requires ServerInv(s) && UploadResult(h, s.db, req).Ok?
    ensures var s' := Run(h, Exec(h, s, OpUpload(req)), later);
            UploadResult(h, s'.db, req).Ok? && Exec(h, s', OpUpload(req)).db.pool == s'.db.pool
  {
    var s1 := Exec(h, s, OpUpload(req));
    var s2 := Run(h, s1, later);
    UploadAcceptedIff(h, s, req);
    AcceptedIsPresent(h, s, req);
    StepKeepsInv(h, s, OpUpload(req));
    RunGrowsPool(h, s1, later);
    RunKeepsInv(h, s1, later);
    UploadAcceptedIff(h, s2, req);
    assert OrderInv(s2, req.peer);
    UploadDoes(h, s2, req);
    assert Key(req.peer, ParseBatch(req.hashes).value[0].hashIndex) in s2.db.pool;
  }

  // ---------------------------------------------------------------- reserving

  /** A reservation succeeds exactly when a hash is left and the next slot has no row; it
      then takes that slot and the hash index equal to it. */
  lemma ReserveIff(s: Server, peer: string, amount: nat)
    requires ServerInv(s)
    ensures ReserveResult(s.db, peer, amount).Ok? <==>
              peer != "" && Slot(s, peer) < Count(s, peer) && Key(peer, Slot(s, peer) + 1) !in s.db.invoices
    ensures ReserveResult(s.db, peer, amount).Ok? ==>
              var (db', slot) := ReserveResult(s.db, peer, amount).value;
              slot == Key(peer, Slot(s, peer) + 1) && db'.invoices[slot].hashIndex == slot.n
              && db'.pool[slot].status == PoolStatus.Reserved && db'.invoices[slot].paymentHash == s.db.pool[slot].paymentHash
  {
    assert OrderInv(s, peer);
    if Key(peer, Slot(s, peer) + 1) !in s.db.invoices {
      LowestIsNext(s, peer);
      if Slot(s, peer) < Count(s, peer) {
        assert EntryInv(s, peer, Slot(s, peer) + 1);
      }
    }
  }

  /** The next slot holds a row that no handler will finalize. */
  ghost predicate Stuck(s: Server, peer: string) {
    var next := Key(peer, Slot(s, peer) + 1);
    next in s.db.invoices && next !in s.open
  }

  /** A handler only ever holds its order's next slot. */
  lemma OpenSlotIsNext(s: Server, slot: Key)
    requires ServerInv(s)
    ensures slot in s.open ==>
              && slot.n == Slot(s, slot.peer) + 1 && slot in s.db.pool && EntryInv(s, slot.peer, slot.n)
              && slot in s.db.invoices && s.db.invoices[slot].status == Status.Reserved && slot.peer in s.db.orders
  {
    assert OrderInv(s, slot.peer) && slot == Key(slot.peer, slot.n);
    assert slot in s.open ==> EntryInv(s, slot.peer, slot.n);
  }

  lemma UploadKeepsStuck(h: Hashes, s: Server, req: UploadRequest, peer: string)
    requires Stuck(s, peer)
    ensures Stuck(Exec(h, s, OpUpload(req)), peer)
  {
    if UploadResult(h, s.db, req).Ok? {
      UploadIsMerge(h, s, req);
    }
  }

  lemma StepKeepsStuck(h: Hashes, s: Server, op: Op, peer: string)
    requires ServerInv(s) && Stuck(s, peer)
    ensures Stuck(Exec(h, s, op), peer)
  {
    assert OrderInv(s, peer);
    match op
    case OpUpload(req) => UploadKeepsStuck(h, s, req, peer);
    case OpReserve(p, amount) => ReserveIff(s, p, amount);
    case OpFinalize(slot, invoice) => OpenSlotIsNext(s, slot);
    case OpRelease(slot) => OpenSlotIsNext(s, slot);
    case _ =>
  }

  /** One release, or one handler that dies, and no later run ever reserves for that order
      again: the abandoned row keeps the only slot a reservation may take. */
  lemma ReleaseStopsOrder(h: Hashes, s: Server, slot: Key, op: Op, later: seq<Op>, amount: nat)
    requires ServerInv(s) && slot in s.open
    requires op == OpRelease(slot) || op == OpAbandon(slot)
    ensures ReserveResult(Run(h, Exec(h, s, op), later).db, slot.peer, amount).Err?
  {
    OpenSlotIsNext(s, slot);
    StepKeepsInv(h, s, op);
    StuckStaysStuck(h, Exec(h, s, op), slot.peer, later);
    RunKeepsInv(h, Exec(h, s, op), later);
    ReserveIff(Run(h, Exec(h, s, op), later), slot.peer, amount);
  }

  lemma {:induction false} StuckStaysStuck(h: Hashes, s: Server, peer: string, later: seq<Op>)
    requires ServerInv(s) && Stuck(s, peer)
    ensures Stuck(Run(h, s, later), peer)
    decreases |later|
  {
    if later != [] {
      StepKeepsStuck(h, s, later[0], peer);
      StepKeepsInv(h, s, later[0]);
      StuckStaysStuck(h, Exec(h, s, later[0]), peer, later[1..]);
    }
  }

  /** A finalized slot, by contrast, moves the order on to the next one. */
  lemma FinalizeAdvancesSlot(h: Hashes, s: Server, slot: Key, invoice: string)
    requires ServerInv(s) && slot in s.open && invoice != ""
    ensures var s' := Exec(h, s, OpFinalize(slot, invoice));
            && slot in s'.db.invoices && slot in s'.db.pool
            && s'.db.invoices[slot].status == Active && s'.db.invoices[slot].inboundInvoice == Some(invoice)
            && Slot(s', slot.peer) == Slot(s, slot.peer) + 1 && s'.db.pool[slot].status == Consumed
            && !Stuck(s', slot.peer)
  {
    OpenSlotIsNext(s, slot);
    assert OrderInv(s, slot.peer);
    assert Key(slot.peer, slot.n + 1) in s.db.invoices ==> EntryInv(s, slot.peer, slot.n + 1);
  }
}
