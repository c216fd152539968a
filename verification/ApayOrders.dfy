/** What uploads, reservations and callbacks do to the tables, in the tables' own terms: which
    uploads are refused and how, and what each accepted operation writes and leaves. */
module ApayOrders {
  import opened Wrappers
  import opened Hex
  import opened ApayMerkle
  import opened ApayPool
  import opened Inv = ApayInvoice
  import opened ApayServer
  import opened ApayRuns
  import opened ApayPoolTheorems

  // ---------------------------------------------------------------- what an upload says

  predicate IsLowerHash(s: string) {
    |s| == 64 && forall i :: 0 <= i < 64 ==> '0' <= s[i] <= '9' || 'a' <= s[i] <= 'f'
  }

  /** Every hash is in order, and numbered from the first on without gap, below 2^63. */
  predicate InOrder(raw: seq<RawHash>) {
    forall i :: 0 <= i < |raw| ==>
      && raw[i].hashIndex.Some? && 1 <= raw[i].hashIndex.value < 0x8000_0000_0000_0000
      && IsLowerHash(raw[i].paymentHash)
      && raw[0].hashIndex.Some? && raw[i].hashIndex.value == raw[0].hashIndex.value + i
  }

  lemma {:induction false} ParsesInOrder(raw: seq<RawHash>, i: nat)
    requires i < |raw| && forall j :: 0 <= j <= i ==> ParsesAt(raw, j)
    ensures raw[0].hashIndex.Some? && raw[i].hashIndex.Some? && raw[i].hashIndex.value == raw[0].hashIndex.value + i
  {
    assert ParsesAt(raw, i);
    if i > 0 {
      ParsesInOrder(raw, i - 1);
    }
  }

  /** A batch is read exactly when it is in order, and then as it stands. */
  lemma ParsesIff(raw: seq<RawHash>)
    ensures ParseBatch(raw).Some? <==> InOrder(raw)
    ensures InOrder(raw) ==>
              && |ParseBatch(raw).value| == |raw|
              && forall i :: 0 <= i < |raw| ==> ParseBatch(raw).value[i] == Entry(raw[i].hashIndex.value, raw[i].paymentHash)
  {
    if ParseBatch(raw).Some? {
      forall i | 0 <= i < |raw|
        ensures raw[i].hashIndex.Some? && 1 <= raw[i].hashIndex.value < 0x8000_0000_0000_0000
        ensures IsLowerHash(raw[i].paymentHash) && raw[0].hashIndex.Some? && raw[i].hashIndex.value == raw[0].hashIndex.value + i
      {
        assert ParsesAt(raw, i);
        ParsesInOrder(raw, i);
      }
    } else if InOrder(raw) {
      forall i | 0 <= i < |raw| ensures ParsesAt(raw, i) {}
    }
  }

  predicate IsHexOf(s: string, bytes: nat) {
    |s| == 2 * bytes && forall i :: 0 <= i < |s| ==> '0' <= s[i] <= '9' || 'a' <= s[i] <= 'f' || 'A' <= s[i] <= 'F'
  }

  lemma DecodesWhenHex(s: string, bytes: nat)
    ensures DecodeString(s).Some? && |DecodeString(s).value| == bytes <==> IsHexOf(s, bytes)
  {
    DecodesIff(s);
  }

  /** A commitment holds exactly when both keys and the batch id are hexadecimal text of 33 and
      16 bytes, it names this many hashes, and its root is the tree's over their leaves. */
  lemma CommitmentHoldsIff(sha: Sha, peer: string, c: Commitment, hashes: seq<Entry>)
    requires hashes != [] && Consecutive(hashes)
    ensures CommitmentValid(sha, peer, c, hashes) <==>
              && IsHexOf(peer, 33) && IsHexOf(c.host, 33) && IsHexOf(c.batchId, 16) && c.size == |hashes|
              && exists leaves :: IsTree(sha, peer, c, hashes, leaves)
  {
    DecodesWhenHex(peer, 33);
    DecodesWhenHex(c.host, 33);
    DecodesWhenHex(c.batchId, 16);
    if DecodePubkey33(peer).Some? && DecodeBatchId16(c.batchId).Some? {
      var tree := Leaves(sha, DecodePubkey33(peer).value, DecodeBatchId16(c.batchId).value, LeafInputs(hashes));
      LeavesStand(sha, peer, c, hashes, tree);
      forall leaves | IsTree(sha, peer, c, hashes, leaves) ensures leaves == tree {
        LeavesStand(sha, peer, c, hashes, leaves);
      }
      assert CommitmentValid(sha, peer, c, hashes) ==> IsTree(sha, peer, c, hashes, tree);
    }
  }

  lemma LeafStandsIff(sha: Sha, peer: string, c: Commitment, e: Entry, leaf: Digest)
    requires DecodePubkey33(peer).Some? && DecodeBatchId16(c.batchId).Some? && e.hashIndex > 0 && IsPaymentHash(e.paymentHash)
    ensures LeafStands(sha, peer, c, e, leaf)
            <==> leaf == LeafHash(sha, DecodePubkey33(peer).value, DecodeBatchId16(c.batchId).value, LeafOf(e))
  {
    PaymentHashDecodes(e.paymentHash);
  }

  lemma LeavesStand(sha: Sha, peer: string, c: Commitment, hashes: seq<Entry>, leaves: seq<Digest>)
    requires DecodePubkey33(peer).Some? && DecodeBatchId16(c.batchId).Some? && Consecutive(hashes) && |leaves| == |hashes|
    ensures (forall i :: 0 <= i < |hashes| ==> LeafStands(sha, peer, c, hashes[i], leaves[i]))
            <==> leaves == Leaves(sha, DecodePubkey33(peer).value, DecodeBatchId16(c.batchId).value, LeafInputs(hashes))
  {
    var tree := Leaves(sha, DecodePubkey33(peer).value, DecodeBatchId16(c.batchId).value, LeafInputs(hashes));
    forall i | 0 <= i < |hashes| ensures LeafStands(sha, peer, c, hashes[i], leaves[i]) <==> leaves[i] == tree[i] {
      LeafStandsIff(sha, peer, c, hashes[i], leaves[i]);
    }
  }

  predicate LeafStands(sha: Sha, peer: string, c: Commitment, e: Entry, leaf: Digest) {
    var (key, id, hash) := (DecodeString(peer), DecodeString(c.batchId), DecodeString(e.paymentHash));
    && key.Some? && |key.value| == 33 && id.Some? && |id.value| == 16 && hash.Some? && |hash.value| == 32 && e.hashIndex >= 0
    && leaf == sha(LeafBuffer(key.value, id.value, LeafInput(e.hashIndex, hash.value)))
  }

  ghost predicate IsTree(sha: Sha, peer: string, c: Commitment, hashes: seq<Entry>, leaves: seq<Digest>) {
    && leaves != [] && |leaves| == |hashes| && (forall i :: 0 <= i < |hashes| ==> LeafStands(sha, peer, c, hashes[i], leaves[i]))
    && c.root == EncodeToString(Root(sha, leaves))
  }

  // ---------------------------------------------------------------- what an upload is answered

  lemma {:induction false} ConflictKinds(pool: map<Key, PoolRow>, peer: string, hashes: seq<Entry>, start: nat)
    requires start <= |hashes|
    ensures FirstConflict(pool, peer, hashes, start) in {None, Some(DuplicateHashConflict), Some(DuplicateIndexConflict)}
    decreases |hashes| - start
  {
    if start < |hashes| {
      ConflictKinds(pool, peer, hashes, start + 1);
    }
  }

  /** Refusals that no table is consulted for. */
  lemma MalformedIsRefused(h: Hashes, db: Db, req: UploadRequest)
    ensures var r := UploadResult(h, db, req);
            && (r == Err(UnsupportedVersion) <==> req.peer != "" && req.version != 1)
            && (req.peer == "" || (req.version == 1 && !(1 <= |req.hashes| <= 200 && InOrder(req.hashes))) ==> r == Err(InvalidHashBatch))
  {
    ParsesIff(req.hashes);
    if ParseBatch(req.hashes).Some? {
      ConflictKinds(db.pool, req.peer, ParseBatch(req.hashes).value, 0);
    }
  }

  lemma BadCommitmentIsRefused(h: Hashes, db: Db, req: UploadRequest)
    requires req.peer != "" && req.version == 1 && 1 <= |req.hashes| <= 200 && InOrder(req.hashes)
    requires (ParsesIff(req.hashes); ParsedIsConsecutive(req.hashes);
              req.batch.Some? && !CommitmentValid(h.sha, req.peer, req.batch.value, ParseBatch(req.hashes).value))
    ensures UploadResult(h, db, req) == Err(InvalidHashBatch)
  {
    ParsesIff(req.hashes);
  }

  /** The well-formed uploads are the others. */
  lemma WellFormedIff(sha: Sha, req: UploadRequest)
    ensures WellFormed(sha, req) <==>
              && req.peer != "" && req.version == 1 && 1 <= |req.hashes| <= 200 && InOrder(req.hashes)
              && (ParsesIff(req.hashes); ParsedIsConsecutive(req.hashes);
                  req.batch.Some? ==> CommitmentValid(sha, req.peer, req.batch.value, ParseBatch(req.hashes).value))
  {
    ParsesIff(req.hashes);
  }

  predicate Repeated(hashes: seq<Entry>, i: nat)
    requires i < |hashes|
  {
    exists j :: 0 <= j < i && hashes[j].paymentHash == hashes[i].paymentHash
  }

  /** Its index is stored with another hash. */
  predicate IndexTaken(pool: map<Key, PoolRow>, peer: string, e: Entry) {
    Key(peer, e.hashIndex) in pool && pool[Key(peer, e.hashIndex)].paymentHash != e.paymentHash
  }

  /** Its hash is stored at another index. */
  predicate HashTaken(pool: map<Key, PoolRow>, peer: string, e: Entry) {
    exists k :: k in pool && k.peer == peer && k.n != e.hashIndex && pool[k].paymentHash == e.paymentHash
  }

  predicate Clashes(pool: map<Key, PoolRow>, peer: string, hashes: seq<Entry>, i: nat)
    requires i < |hashes|
  {
    Repeated(hashes, i) || IndexTaken(pool, peer, hashes[i]) || HashTaken(pool, peer, hashes[i])
  }

  /** From `start` on, entry `i` is the first in conflict. */
  predicate FirstClash(pool: map<Key, PoolRow>, peer: string, hashes: seq<Entry>, start: nat, i: nat) {
    && start <= i < |hashes| && Clashes(pool, peer, hashes, i)
    && forall j :: start <= j < i ==> !Clashes(pool, peer, hashes, j)
  }

  lemma ConflictOf(pool: map<Key, PoolRow>, peer: string, hashes: seq<Entry>, i: nat)
    requires i < |hashes|
    ensures EntryConflict(pool, peer, hashes, i)
            == if !Clashes(pool, peer, hashes, i) then None
               else if !Repeated(hashes, i) && IndexTaken(pool, peer, hashes[i]) then Some(DuplicateIndexConflict)
               else Some(DuplicateHashConflict)
  {}

  lemma {:induction false} ConflictIsFirst(pool: map<Key, PoolRow>, peer: string, hashes: seq<Entry>, start: nat)
    requires start <= |hashes|
    ensures FirstConflict(pool, peer, hashes, start) == None <==> forall i :: start <= i < |hashes| ==> !Clashes(pool, peer, hashes, i)
    ensures forall i: nat :: FirstClash(pool, peer, hashes, start, i) ==>
              FirstConflict(pool, peer, hashes, start) == EntryConflict(pool, peer, hashes, i)
    decreases |hashes| - start
  {
    if start < |hashes| {
      ConflictOf(pool, peer, hashes, start);
      ConflictIsFirst(pool, peer, hashes, start + 1);
      forall i: nat | FirstClash(pool, peer, hashes, start, i) && i > start ensures FirstClash(pool, peer, hashes, start + 1, i) {}
    }
  }

  lemma FirstClashExists(pool: map<Key, PoolRow>, peer: string, hashes: seq<Entry>, i: nat) returns (first: nat)
    requires i < |hashes| && Clashes(pool, peer, hashes, i)
    ensures FirstClash(pool, peer, hashes, 0, first)
  {
    first := 0;
    while !Clashes(pool, peer, hashes, first)
      invariant first <= i && forall j :: 0 <= j < first ==> !Clashes(pool, peer, hashes, j)
      decreases i - first
    {
      first := first + 1;
    }
  }

  /** A well-formed upload whose hashes conflict is refused for its first entry in conflict:
      for its index if only that is taken, for its hash otherwise. Without conflict it is
      accepted or invalid. */
  lemma ConflictIsNamed(h: Hashes, s: Server, req: UploadRequest, i: nat)
    requires ServerInv(s) && WellFormed(h.sha, req) && i < |req.hashes|
    ensures var (hashes, pool, r) := (ParseBatch(req.hashes).value, s.db.pool, UploadResult(h, s.db, req));
            && (FirstClash(pool, req.peer, hashes, 0, i) ==>
                  r == Err(if !Repeated(hashes, i) && IndexTaken(pool, req.peer, hashes[i]) then DuplicateIndexConflict
                           else DuplicateHashConflict))
            && ((forall j :: 0 <= j < |hashes| ==> !Clashes(pool, req.peer, hashes, j)) ==> r.Ok? || r == Err(InvalidHashBatch))
  {
    var hashes := ParseBatch(req.hashes).value;
    assert OrderInv(s, req.peer);
    HighestIsCount(s, req.peer, Highest(s.db.pool, req.peer));
    ConflictIsFirst(s.db.pool, req.peer, hashes, 0);
    ConflictOf(s.db.pool, req.peer, hashes, i);
  }

  /** All an accepted upload writes: the watermark and the pool as described above, and its
      commitment unless the batch id is taken. */
  lemma UploadWrites(h: Hashes, s: Server, req: UploadRequest)
    requires ServerInv(s) && UploadResult(h, s.db, req).Ok?
    ensures var (s', r) := (Exec(h, s, OpUpload(req)), UploadResult(h, s.db, req).value.1);
            && r.nextIndexExpected == r.acceptedThrough + 1
            && s'.db.orders == s.db.orders[req.peer := Order(Some(r.acceptedThrough),
                                                             if req.peer in s.db.orders then s.db.orders[req.peer].currentSlot else None)]
            && r.acceptedThrough == Count(s, req.peer) + (if s'.db.pool == s.db.pool then 0 else |req.hashes|)
            && s'.db.invoices == s.db.invoices && s'.open == s.open
            && (match req.batch
                case None => s'.db.batches == s.db.batches
                case Some(c) =>
                  s'.db.batches == if c.batchId in s.db.batches then s.db.batches
                                   else s.db.batches[c.batchId := Batch(req.peer, c.host, c.root, c.size)])
  {
    var hashes := ParseBatch(req.hashes).value;
    assert OrderInv(s, req.peer);
    UploadIsMerge(h, s, req);
    UploadDoes(h, s, req);
    ParsedIsConsecutive(req.hashes);
    StampedAt(req.peer, hashes, BatchIdOf(req));
    if !AllPresent(s.db.pool, req.peer, hashes) {
      assert Key(req.peer, hashes[0].hashIndex) in Exec(h, s, OpUpload(req)).db.pool;
    }
  }

  // ---------------------------------------------------------------- slots

  /** The slot after the order's current one. */
  function NextSlot(db: Db, peer: string): Key {
    var cur := if peer in db.orders && db.orders[peer].currentSlot.Some? then db.orders[peer].currentSlot.value else 0;
    Key(peer, if cur > 0 then cur + 1 else 1)
  }

  predicate Free(db: Db, peer: string, i: int) {
    Key(peer, i) in db.pool && db.pool[Key(peer, i)].status == PoolStatus.Available
  }

  /** A reservation is refused for want of a peer, then of a hash, then of a free next slot. */
  lemma ReserveRefusals(db: Db, peer: string, amount: nat)
    ensures var r := ReserveResult(db, peer, amount);
            && (r == Err(EmptyPeer) <==> peer == "")
            && (r == Err(PoolEmpty) <==> peer != "" && forall i :: !Free(db, peer, i))
            && (r == Err(UniqueViolation) <==> peer != "" && (exists i :: Free(db, peer, i)) && NextSlot(db, peer) in db.invoices)
            && (r.Ok? <==> peer != "" && (exists i :: Free(db, peer, i)) && NextSlot(db, peer) !in db.invoices)
  {
    var lowest := Lowest(db.pool, peer);
    assert lowest.Some? ==> Free(db, peer, lowest.value);
    assert lowest == None ==> forall i :: Free(db, peer, i) ==> IsAvailable(db.pool, Key(peer, i));
  }

  /** All it writes: the lowest free hash is reserved, and a reserved row for the requested
      amount takes the next slot with that hash and nothing else yet. */
  lemma ReserveWrites(db: Db, peer: string, amount: nat, i: int)
    requires ReserveResult(db, peer, amount).Ok? && Free(db, peer, i) && forall j :: Free(db, peer, j) ==> i <= j
    ensures var ((db', slot), k) := (ReserveResult(db, peer, amount).value, Key(peer, i));
            && slot == NextSlot(db, peer)
            && db'.pool == db.pool[k := db.pool[k].(status := PoolStatus.Reserved)]
            && db'.invoices == db.invoices[slot := Invoice(i, db.pool[k].paymentHash, amount, Status.Reserved, None, None, None, None)]
            && db'.orders == (if peer in db.orders then db.orders else db.orders[peer := Order(None, None)])
            && db'.batches == db.batches
  {
    var lowest := Lowest(db.pool, peer);
    assert IsAvailable(db.pool, Key(peer, i));
    assert Free(db, peer, lowest.value);
    assert lowest == Some(i);
    assert peer in db.orders ==> db.orders[peer := db.orders[peer]] == db.orders;
  }

  /** The hash a row was reserved with, if it is still in the pool, takes `status`. */
  predicate HashBecomes(pool: map<Key, PoolRow>, pool': map<Key, PoolRow>, k: Key, status: PoolStatus) {
    if k in pool then pool' == pool[k := pool[k].(status := status)] else pool' == pool
  }

  /** A slot is finalized exactly when there is an invoice, the row exists, it was not released,
      and it is not active with another invoice; all that changes is the row, its hash and the
      order's current slot. */
  lemma FinalizeIff(db: Db, slot: Key, invoice: string)
    ensures FinalizeSlot(db, slot, invoice).Ok? <==>
              && invoice != "" && slot in db.invoices && db.invoices[slot].status != Failed
              && (db.invoices[slot].status == Active ==> db.invoices[slot].inboundInvoice in {None, Some(""), Some(invoice)})
    ensures FinalizeSlot(db, slot, invoice).Ok? ==>
              var (db', row) := (FinalizeSlot(db, slot, invoice).value, db.invoices[slot]);
              && db'.invoices == db.invoices[slot := row.(inboundInvoice := Some(invoice), status := Active)]
              && HashBecomes(db.pool, db'.pool, Key(slot.peer, row.hashIndex), Consumed)
              && (if slot.peer in db.orders
                  then db'.orders == db.orders[slot.peer := Order(db.orders[slot.peer].acceptedThrough, Some(slot.n))]
                  else db'.orders == db.orders)
              && db'.batches == db.batches
  {}

  /** A slot is released exactly when its row exists and is not active; a row released already
      stays, and otherwise all that changes is the row and its hash. */
  lemma ReleaseIff(db: Db, slot: Key)
    ensures ReleaseSlot(db, slot).Ok? <==> slot in db.invoices && db.invoices[slot].status != Active
    ensures ReleaseSlot(db, slot).Ok? ==>
              var (db', row) := (ReleaseSlot(db, slot).value, db.invoices[slot]);
              if row.status == Failed then db' == db
              else && db'.invoices == db.invoices[slot := row.(status := Failed)]
                   && HashBecomes(db.pool, db'.pool, Key(slot.peer, row.hashIndex), PoolStatus.Available)
                   && db'.orders == db.orders && db'.batches == db.batches
  {}

  /** Both can be repeated without effect, and each rules the other out. */
  lemma SettlingTwice(db: Db, slot: Key, invoice: string)
    ensures FinalizeSlot(db, slot, invoice).Ok? ==>
              var db' := FinalizeSlot(db, slot, invoice).value;
              FinalizeSlot(db', slot, invoice) == Ok(db') && ReleaseSlot(db', slot) == Err(WrongState)
    ensures ReleaseSlot(db, slot).Ok? ==>
              var db' := ReleaseSlot(db, slot).value;
              ReleaseSlot(db', slot) == Ok(db') && FinalizeSlot(db', slot, invoice).Err?
  {
    if FinalizeSlot(db, slot, invoice).Ok? {
      var db' := FinalizeSlot(db, slot, invoice).value;
      var again := FinalizeSlot(db', slot, invoice).value;
      assert again.pool == db'.pool && again.invoices == db'.invoices && again.orders == db'.orders;
    }
  }

  /** A handler holds the slot it reserved until it finalizes, releases or dies, once; only a
      slot it holds is finalized or released. */
  lemma HandlersHold(h: Hashes, s: Server, peer: string, amount: nat, slot: Key, invoice: string)
    ensures var s' := Exec(h, s, OpReserve(peer, amount));
            if ReserveResult(s.db, peer, amount).Ok?
            then s' == Server(ReserveResult(s.db, peer, amount).value.0, s.open + {NextSlot(s.db, peer)}) else s' == s
    ensures var s' := Exec(h, s, OpFinalize(slot, invoice));
            && s'.open == s.open - {slot}
            && s'.db == if slot in s.open && FinalizeSlot(s.db, slot, invoice).Ok? then FinalizeSlot(s.db, slot, invoice).value else s.db
    ensures var s' := Exec(h, s, OpRelease(slot));
            && s'.open == s.open - {slot}
            && s'.db == if slot in s.open && ReleaseSlot(s.db, slot).Ok? then ReleaseSlot(s.db, slot).value else s.db
    ensures Exec(h, s, OpAbandon(slot)) == s.(open := s.open - {slot})
  {
    assert slot !in s.open ==> s.open - {slot} == s.open;
  }

  /** A mark by hash touches the rows with that hash alone, and moves exactly those it applies to. */
  lemma MarkMovesIff(h: Hashes, s: Server, hash: string, m: Mark, k: Key)
    requires !m.MarkInboundCancelled? && !m.MarkOutboundCancelled? && k in s.db.invoices
    ensures var (s', row) := (Exec(h, s, OpMark(hash, m)), s.db.invoices[k]);
            && k in s'.db.invoices && s'.db.invoices.Keys == s.db.invoices.Keys && s'.open == s.open
            && s'.db.pool == s.db.pool && s'.db.orders == s.db.orders && s'.db.batches == s.db.batches
            && (if row.paymentHash == hash && Applies(h.shaHex, row, m)
                then s'.db.invoices[k].status == Target(m) else s'.db.invoices[k] == row)
  {
    MarkTransitionsIff(h.shaHex, s.db.invoices[k], m);
  }
}
