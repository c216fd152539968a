/** The lifetime theorem: a batch accepted with a commitment keeps yielding proofs that verify
    against its root, for exactly as long as no further rows are stamped with its batch id. */
module ApayLifetime {
  import opened Wrappers
  import opened Hex
  import opened ApayMerkle
  import opened ApayPool
  import opened Inv = ApayInvoice
  import opened ApayServer
  import opened ApayRuns
  import opened ApayPoolTheorems
  import opened ApayProof

  /** This step adds rows stamped with the batch. */
  ghost predicate Stamps(h: Hashes, s: Server, op: Op, b: string) {
    && op.OpUpload? && BatchIdOf(op.req) == Some(b)
    && UploadResult(h, s.db, op.req).Ok? && Exec(h, s, op).db.pool != s.db.pool
  }

  ghost predicate NeverStamped(h: Hashes, s: Server, ops: seq<Op>, b: string)
    decreases |ops|
  {
    ops == [] || (!Stamps(h, s, ops[0], b) && NeverStamped(h, Exec(h, s, ops[0]), ops[1..], b))
  }

  /** An upload of new hashes with a commitment whose batch id was never used. */
  ghost predicate FreshCommit(h: Hashes, s: Server, req: UploadRequest) {
    && UploadResult(h, s.db, req).Ok? && req.batch.Some? && req.batch.value.batchId !in s.db.batches
    && !AllPresent(s.db.pool, req.peer, ParseBatch(req.hashes).value)
  }

  lemma FreshBatchIsExclusive(h: Hashes, s: Server, req: UploadRequest)
    requires ServerInv(s) && FreshCommit(h, s, req)
    ensures var (db', hashes) := (Exec(h, s, OpUpload(req)).db, ParseBatch(req.hashes).value);
            Stored(h.sha, db', req.peer, req.batch.value, hashes) && Exclusive(db', req.peer, req.batch.value.batchId, hashes)
  {
    var s', hashes, c := Exec(h, s, OpUpload(req)), ParseBatch(req.hashes).value, req.batch.value;
    assert OrderInv(s, req.peer);
    UploadAcceptedIff(h, s, req);
    ValidBatchIdIsNonempty(c.batchId);
    UploadDoes(h, s, req);
    AppendShape(s, s', req, hashes);
    UnusedBatchHasNoRows(s, c.batchId);
    AppendIsExclusive(s, s', req.peer, c.batchId, hashes);
  }

  lemma ValidBatchIdIsNonempty(b: string)
    ensures DecodeBatchId16(b).Some? ==> b != ""
  {}

  lemma AppendIsExclusive(s: Server, s': Server, peer: string, b: string, hashes: seq<Entry>)
    requires hashes != [] && AppendedExactly(s, s', peer, hashes, Some(b))
    requires forall k :: k in s.db.pool ==> s.db.pool[k].batchId != Some(b)
    ensures Exclusive(s'.db, peer, b, hashes)
    ensures forall i :: 0 <= i < |hashes| ==>
              Key(peer, hashes[i].hashIndex) in s'.db.pool
              && s'.db.pool[Key(peer, hashes[i].hashIndex)] == PoolRow(hashes[i].paymentHash, PoolStatus.Available, Some(b))
  {
    assert hashes[0].hashIndex == Count(s, peer) + 1;
  }

  lemma UnusedBatchHasNoRows(s: Server, b: string)
    requires ServerInv(s) && b !in s.db.batches
    ensures forall k :: k in s.db.pool ==> s.db.pool[k].batchId != Some(b)
  {
    forall k | k in s.db.pool ensures s.db.pool[k].batchId != Some(b) {
      assert OrderInv(s, k.peer) && k == Key(k.peer, k.n) && EntryInv(s, k.peer, k.n);
    }
  }

  lemma StoredStays(h: Hashes, s: Server, op: Op, peer: string, c: Commitment, hashes: seq<Entry>)
    requires ServerInv(s) && Stored(h.sha, s.db, peer, c, hashes)
    ensures Stored(h.sha, Exec(h, s, op).db, peer, c, hashes)
  {
    StepGrowsPool(h, s, op);
  }

  /** Only an accepted upload adds rows. */
  lemma OthersAddNoRows(h: Hashes, s: Server, op: Op)
    requires ServerInv(s) && !(op.OpUpload? && UploadResult(h, s.db, op.req).Ok?)
    ensures forall k :: k in Exec(h, s, op).db.pool ==>
              k in s.db.pool && Exec(h, s, op).db.pool[k].batchId == s.db.pool[k].batchId
  {}

  lemma ExclusiveStays(h: Hashes, s: Server, op: Op, peer: string, c: Commitment, hashes: seq<Entry>)
    requires ServerInv(s) && Stored(h.sha, s.db, peer, c, hashes) && Exclusive(s.db, peer, c.batchId, hashes)
    requires !Stamps(h, s, op, c.batchId)
    ensures Exclusive(Exec(h, s, op).db, peer, c.batchId, hashes)
  {
    if op.OpUpload? && UploadResult(h, s.db, op.req).Ok? {
      AppendedRowsCarryBatch(h, s, op.req);
    } else {
      OthersAddNoRows(h, s, op);
    }
  }

  lemma AppendedRowsCarryBatch(h: Hashes, s: Server, req: UploadRequest)
    requires ServerInv(s) && UploadResult(h, s.db, req).Ok?
    ensures forall k :: k in Exec(h, s, OpUpload(req)).db.pool ==>
              || (k in s.db.pool && Exec(h, s, OpUpload(req)).db.pool[k] == s.db.pool[k])
              || (k !in s.db.pool && Exec(h, s, OpUpload(req)).db.pool[k].batchId == BatchIdOf(req))
  {
    AppendOrNothing(h, s, req);
    var s', hashes, next := Exec(h, s, OpUpload(req)), ParseBatch(req.hashes).value, Count(s, req.peer) + 1;
    if AppendedExactly(s, s', req.peer, hashes, BatchIdOf(req)) {
      forall k | k in s'.db.pool && k !in s.db.pool ensures s'.db.pool[k].batchId == BatchIdOf(req) {
        var i := k.n - next;
        assert k == Key(req.peer, next + i) && hashes[i].hashIndex == next + i;
      }
    }
  }

  lemma {:induction false} BatchSurvivesRun(h: Hashes, s: Server, ops: seq<Op>, peer: string, c: Commitment, hashes: seq<Entry>)
    requires ServerInv(s) && Stored(h.sha, s.db, peer, c, hashes)
    ensures Stored(h.sha, Run(h, s, ops).db, peer, c, hashes)
    ensures Exclusive(s.db, peer, c.batchId, hashes) && NeverStamped(h, s, ops, c.batchId) ==>
              Exclusive(Run(h, s, ops).db, peer, c.batchId, hashes)
    decreases |ops|
  {
    if ops != [] {
      StoredStays(h, s, ops[0], peer, c, hashes);
      if Exclusive(s.db, peer, c.batchId, hashes) && !Stamps(h, s, ops[0], c.batchId) {
        ExclusiveStays(h, s, ops[0], peer, c, hashes);
      }
      StepKeepsInv(h, s, ops[0]);
      BatchSurvivesRun(h, Exec(h, s, ops[0]), ops[1..], peer, c, hashes);
    }
  }

  /** Upload to proof: a batch of new hashes accepted under an unused batch id yields, after
      any later run that stamps no further rows with that id, a verifying proof for each of
      its hashes. */
  lemma UploadToProof(h: Hashes, s: Server, req: UploadRequest, later: seq<Op>, keys: seq<Key>, i: nat)
    requires ServerInv(s) && FreshCommit(h, s, req)
    requires NeverStamped(h, Exec(h, s, OpUpload(req)), later, req.batch.value.batchId)
    requires IsBatchSelection(Run(h, Exec(h, s, OpUpload(req)), later).db.pool, req.batch.value.batchId, keys)
    requires i < |req.hashes|
    ensures ParseBatch(req.hashes).Some? && i < |ParseBatch(req.hashes).value|
    ensures var (end, e) := (Run(h, Exec(h, s, OpUpload(req)), later).db, ParseBatch(req.hashes).value[i]);
            ProvesHash(h.sha, BuildProof(h.sha, end, Key(req.peer, e.hashIndex), keys), req.peer, req.batch.value, e)
  {
    var s1, hashes, c := Exec(h, s, OpUpload(req)), ParseBatch(req.hashes).value, req.batch.value;
    ParsedIsConsecutive(req.hashes);
    FreshBatchIsExclusive(h, s, req);
    StepKeepsInv(h, s, OpUpload(req));
    BatchSurvivesRun(h, s1, later, req.peer, c, hashes);
    ExclusiveBatchProves(h.sha, Run(h, s1, later).db, req.peer, c, hashes, keys, i);
  }

  // ---------------------------------------------------------------- exactly when it stops

  /** The buffers hashed for the committed tree and for the tree over the selected rows. */
  ghost predicate CoversTrees(sha: Sha, rpk: Pubkey33, bid: BatchId16, a: seq<LeafInput>, b: seq<LeafInput>, buffers: set<Bytes>) {
    && HoldsLeaves(rpk, bid, a, buffers) && HoldsTree(sha, Leaves(sha, rpk, bid, a), buffers)
    && HoldsLeaves(rpk, bid, b, buffers) && HoldsTree(sha, Leaves(sha, rpk, bid, b), buffers)
  }

  /** A tree with a leaf outside the committed entries has another root. */
  lemma ForeignLeafChangesRoot(sha: Sha, rpk: Pubkey33, bid: BatchId16, committed: seq<LeafInput>, selected: seq<LeafInput>,
                               q: nat, buffers: set<Bytes>)
    requires committed != [] && q < |selected| && selected[q] !in committed
    requires IsUint64(selected[q].hashIndex) && forall e :: e in committed ==> IsUint64(e.hashIndex)
    requires CollisionFree(sha, buffers) && CoversTrees(sha, rpk, bid, committed, selected, buffers)
    ensures Root(sha, Leaves(sha, rpk, bid, selected)) != Root(sha, Leaves(sha, rpk, bid, committed))
  {
    var leaves := Leaves(sha, rpk, bid, selected);
    Completeness(sha, leaves, q);
    GeneratedProofBuffers(sha, leaves, q, buffers);
    if Root(sha, leaves) == Root(sha, Leaves(sha, rpk, bid, committed)) {
      Soundness(sha, rpk, bid, committed, rpk, bid, selected[q], Proof(sha, leaves, q), buffers);
    }
  }

  /** A proof rebuilt over other rows carries its hash to their root, whichever commitment
      under this batch id it is asked to prove: the stored root is the only one it names. */
  lemma ProofImpliesRoot(sha: Sha, db: Db, peer: string, c: Commitment, hashes: seq<Entry>, keys: seq<Key>,
                         at: Key, asked: Commitment, e: Entry)
    requires Stored(sha, db, peer, c, hashes) && IsBatchSelection(db.pool, c.batchId, keys) && asked.batchId == c.batchId
    requires ProvesHash(sha, BuildProof(sha, db, at, keys), peer, asked, e)
    ensures SelectedEntries(db.pool, keys).Some? && SelectedEntries(db.pool, keys).value != []
    ensures var (rpk, bid) := (DecodePubkey33(peer).value, DecodeBatchId16(c.batchId).value);
            Root(sha, Leaves(sha, rpk, bid, SelectedEntries(db.pool, keys).value)) == Root(sha, Leaves(sha, rpk, bid, LeafInputs(hashes)))
  {
    var rpk, bid := DecodePubkey33(peer).value, DecodeBatchId16(c.batchId).value;
    var entries, t := SelectedEntries(db.pool, keys).value, LastAt(keys, at.n).value;
    assert EntryOfRow(keys[t], db.pool[keys[t]]) == Some(entries[t]);
    assert entries[t] == LeafOf(e);
    Completeness(sha, Leaves(sha, rpk, bid, entries), t);
    DecodeEncode(Root(sha, Leaves(sha, rpk, bid, LeafInputs(hashes))));
  }

  lemma ForeignEntry(pool: map<Key, PoolRow>, hashes: seq<Entry>, keys: seq<Key>, foreign: Key) returns (q: nat)
    requires (forall k :: k in keys ==> k in pool) && foreign in keys && 0 < foreign.n <= MAX_INT64
    requires Consecutive(hashes) && SelectedEntries(pool, keys).Some?
    requires forall j :: 0 <= j < |hashes| ==> EntryOfRow(foreign, pool[foreign]) != Some(LeafOf(hashes[j]))
    ensures q < |keys|
    ensures SelectedEntries(pool, keys).value[q] !in LeafInputs(hashes)
    ensures IsUint64(SelectedEntries(pool, keys).value[q].hashIndex)
  {
    q :| 0 <= q < |keys| && keys[q] == foreign;
    assert EntryOfRow(keys[q], pool[keys[q]]) == Some(SelectedEntries(pool, keys).value[q]);
  }

  lemma ForeignRowChangesRoot(sha: Sha, rpk: Pubkey33, bid: BatchId16, pool: map<Key, PoolRow>, hashes: seq<Entry>, keys: seq<Key>,
                              foreign: Key, buffers: set<Bytes>)
    requires (forall k :: k in keys ==> k in pool) && foreign in keys && 0 < foreign.n <= MAX_INT64
    requires hashes != [] && Consecutive(hashes) && SelectedEntries(pool, keys).Some? && SelectedEntries(pool, keys).value != []
    requires forall j :: 0 <= j < |hashes| ==> EntryOfRow(foreign, pool[foreign]) != Some(LeafOf(hashes[j]))
    requires CollisionFree(sha, buffers)
    requires CoversTrees(sha, rpk, bid, LeafInputs(hashes), SelectedEntries(pool, keys).value, buffers)
    ensures Root(sha, Leaves(sha, rpk, bid, SelectedEntries(pool, keys).value)) != Root(sha, Leaves(sha, rpk, bid, LeafInputs(hashes)))
  {
    var q := ForeignEntry(pool, hashes, keys, foreign);
    ForeignLeafChangesRoot(sha, rpk, bid, LeafInputs(hashes), SelectedEntries(pool, keys).value, q, buffers);
  }

  /** One row stamped with the batch that is not one of its entries, and no row gets a
      verifying proof under the batch id any more, its own hash included. */
  lemma ForeignRowSpoilsProofs(sha: Sha, db: Db, peer: string, c: Commitment, hashes: seq<Entry>, keys: seq<Key>,
                               at: Key, asked: Commitment, e: Entry, foreign: Key, buffers: set<Bytes>)
    requires Stored(sha, db, peer, c, hashes) && IsBatchSelection(db.pool, c.batchId, keys) && asked.batchId == c.batchId
    requires foreign in keys && 0 < foreign.n <= MAX_INT64
    requires forall j :: 0 <= j < |hashes| ==> EntryOfRow(foreign, db.pool[foreign]) != Some(LeafOf(hashes[j]))
    requires SelectedEntries(db.pool, keys).Some? ==>
               CollisionFree(sha, buffers)
               && CoversTrees(sha, DecodePubkey33(peer).value, DecodeBatchId16(c.batchId).value,
                              LeafInputs(hashes), SelectedEntries(db.pool, keys).value, buffers)
    ensures !ProvesHash(sha, BuildProof(sha, db, at, keys), peer, asked, e)
  {
    if ProvesHash(sha, BuildProof(sha, db, at, keys), peer, asked, e) {
      ProofImpliesRoot(sha, db, peer, c, hashes, keys, at, asked, e);
      ForeignRowChangesRoot(sha, DecodePubkey33(peer).value, DecodeBatchId16(c.batchId).value, db.pool, hashes, keys, foreign, buffers);
    }
  }

  /** A step that stamps rows adds one that is not a row of the stored batch. */
  lemma StampAddsRow(h: Hashes, s: Server, op: Op, peer: string, c: Commitment, hashes: seq<Entry>) returns (k: Key)
    requires ServerInv(s) && Stored(h.sha, s.db, peer, c, hashes)
    ensures Stamps(h, s, op, c.batchId) ==>
              && k in Exec(h, s, op).db.pool && Exec(h, s, op).db.pool[k].batchId == Some(c.batchId)
              && forall j :: 0 <= j < |hashes| ==> k != Key(peer, hashes[j].hashIndex)
  {
    k := Key(peer, 0);
    if Stamps(h, s, op, c.batchId) {
      AppendOrNothing(h, s, op.req);
      AppendedRowsCarryBatch(h, s, op.req);
      k := Key(op.req.peer, Count(s, op.req.peer) + 1);
      assert |ParseBatch(op.req.hashes).value| > 0;
    }
  }

  /** A run either stamps no further rows or leaves one that is not a row of the batch. */
  lemma {:induction false} StampLeavesForeignRow(h: Hashes, s: Server, ops: seq<Op>, peer: string, c: Commitment, hashes: seq<Entry>)
    returns (k: Key)
    requires ServerInv(s) && Stored(h.sha, s.db, peer, c, hashes)
    ensures NeverStamped(h, s, ops, c.batchId)
            || (k in Run(h, s, ops).db.pool && Run(h, s, ops).db.pool[k].batchId == Some(c.batchId)
                && forall j :: 0 <= j < |hashes| ==> k != Key(peer, hashes[j].hashIndex))
    decreases |ops|
  {
    k := Key(peer, 0);
    if ops != [] {
      var s1 := Exec(h, s, ops[0]);
      StepKeepsInv(h, s, ops[0]);
      if Stamps(h, s, ops[0], c.batchId) {
        k := StampAddsRow(h, s, ops[0], peer, c, hashes);
        RunGrowsPool(h, s1, ops[1..]);
      } else {
        StoredStays(h, s, ops[0], peer, c, hashes);
        k := StampLeavesForeignRow(h, s1, ops[1..], peer, c, hashes);
      }
    }
  }

  /** The rows read back, with payment hashes distinct across orders, and `sha` collision-free
      on the buffers hashed for the committed tree and the rebuilt one. */
  ghost predicate RebuildIsCollisionFree(sha: Sha, db: Db, peer: string, c: Commitment, hashes: seq<Entry>,
                                         keys: seq<Key>, buffers: set<Bytes>)
  {
    && Consecutive(hashes) && DecodePubkey33(peer).Some? && DecodeBatchId16(c.batchId).Some?
    && IsBatchSelection(db.pool, c.batchId, keys)
    && (forall k, j :: k in db.pool && k.peer != peer && 0 <= j < |hashes| ==> db.pool[k].paymentHash != hashes[j].paymentHash)
    && CollisionFree(sha, buffers)
    && (SelectedEntries(db.pool, keys).Some? ==>
          CoversTrees(sha, DecodePubkey33(peer).value, DecodeBatchId16(c.batchId).value,
                      LeafInputs(hashes), SelectedEntries(db.pool, keys).value, buffers))
  }

  /** After any later run, either no upload stamped further rows with a stored batch's id, or
      nothing is proved under that id: no hash of any upload, under no commitment that carries
      the id. */
  lemma StampEndsProofs(h: Hashes, s: Server, peer: string, c: Commitment, hashes: seq<Entry>, later: seq<Op>,
                        keys: seq<Key>, at: Key, asked: Commitment, e: Entry, buffers: set<Bytes>)
    requires ServerInv(s) && Stored(h.sha, s.db, peer, c, hashes) && asked.batchId == c.batchId
    requires RebuildIsCollisionFree(h.sha, Run(h, s, later).db, peer, c, hashes, keys, buffers)
    ensures NeverStamped(h, s, later, c.batchId)
            || !ProvesHash(h.sha, BuildProof(h.sha, Run(h, s, later).db, at, keys), peer, asked, e)
  {
    if !NeverStamped(h, s, later, c.batchId) {
      BatchSurvivesRun(h, s, later, peer, c, hashes);
      var foreign := StampLeavesForeignRow(h, s, later, peer, c, hashes);
      RunKeepsInv(h, s, later);
      var end := Run(h, s, later);
      ForeignRowIsNoEntry(end, peer, hashes, foreign);
      ForeignRowSpoilsProofs(h.sha, end.db, peer, c, hashes, keys, at, asked, e, foreign, buffers);
    }
  }

  /** The exact lifetime of a stored batch that alone carries its stamp: after any later run
      the rebuilt proof verifies if and only if no upload stamped further rows with its id. */
  lemma StoredProofsIff(h: Hashes, s: Server, peer: string, c: Commitment, hashes: seq<Entry>, later: seq<Op>,
                        keys: seq<Key>, i: nat, buffers: set<Bytes>)
    requires ServerInv(s) && Stored(h.sha, s.db, peer, c, hashes) && Exclusive(s.db, peer, c.batchId, hashes) && i < |hashes|
    requires RebuildIsCollisionFree(h.sha, Run(h, s, later).db, peer, c, hashes, keys, buffers)
    ensures ProvesHash(h.sha, BuildProof(h.sha, Run(h, s, later).db, Key(peer, hashes[i].hashIndex), keys), peer, c, hashes[i])
            <==> NeverStamped(h, s, later, c.batchId)
  {
    if NeverStamped(h, s, later, c.batchId) {
      BatchSurvivesRun(h, s, later, peer, c, hashes);
      ExclusiveBatchProves(h.sha, Run(h, s, later).db, peer, c, hashes, keys, i);
    } else {
      StampEndsProofs(h, s, peer, c, hashes, later, keys, Key(peer, hashes[i].hashIndex), c, hashes[i], buffers);
    }
  }

  /** From the upload on: after a fresh commit and any later run, the rebuilt proof verifies if
      and only if no later upload stamped further rows with the batch id. */
  lemma UploadToProofIff(h: Hashes, s: Server, req: UploadRequest, later: seq<Op>, keys: seq<Key>, i: nat, buffers: set<Bytes>)
    requires ServerInv(s) && FreshCommit(h, s, req) && ParseBatch(req.hashes).Some? && i < |req.hashes|
    ensures var (db, hashes) := (Run(h, Exec(h, s, OpUpload(req)), later).db, ParseBatch(req.hashes).value);
            RebuildIsCollisionFree(h.sha, db, req.peer, req.batch.value, hashes, keys, buffers) ==>
              (ProvesHash(h.sha, BuildProof(h.sha, db, Key(req.peer, hashes[i].hashIndex), keys), req.peer, req.batch.value, hashes[i])
               <==> NeverStamped(h, Exec(h, s, OpUpload(req)), later, req.batch.value.batchId))
  {
    FreshBatchIsExclusive(h, s, req);
    StepKeepsInv(h, s, OpUpload(req));
    var db := Run(h, Exec(h, s, OpUpload(req)), later).db;
    if RebuildIsCollisionFree(h.sha, db, req.peer, req.batch.value, ParseBatch(req.hashes).value, keys, buffers) {
      StoredProofsIff(h, Exec(h, s, OpUpload(req)), req.peer, req.batch.value, ParseBatch(req.hashes).value, later, keys, i, buffers);
    }
  }

  lemma ForeignRowIsNoEntry(s: Server, peer: string, hashes: seq<Entry>, k: Key)
    requires ServerInv(s) && Consecutive(hashes) && k in s.db.pool
    requires forall j :: 0 <= j < |hashes| ==> k != Key(peer, hashes[j].hashIndex)
    requires k.peer != peer ==> forall j :: 0 <= j < |hashes| ==> s.db.pool[k].paymentHash != hashes[j].paymentHash
    ensures 0 < k.n <= MAX_INT64
    ensures forall j :: 0 <= j < |hashes| ==> EntryOfRow(k, s.db.pool[k]) != Some(LeafOf(hashes[j]))
  {
    assert OrderInv(s, k.peer) && k == Key(k.peer, k.n) && EntryInv(s, k.peer, k.n);
    PaymentHashDecodes(s.db.pool[k].paymentHash);
    forall j | 0 <= j < |hashes| ensures EntryOfRow(k, s.db.pool[k]) != Some(LeafOf(hashes[j])) {
      PaymentHashDecodes(hashes[j].paymentHash);
    }
  }
}
