/** A batch id can be used again: nothing in an accepted upload stops a later one from
    stamping its rows with the same id, which is what ends the life of a batch's proofs. */
module ApayReuse {
  import opened Wrappers
  import opened Hex
  import opened ApayMerkle
  import opened ApayPool
  import opened ApayServer
  import opened ApayRuns
  import opened ApayPoolTheorems
  import opened ApayProof
  import opened ApayLifetime

  /** An upload whose commitment is computed as an honest client would. */
  function Committing(sha: Sha, peer: string, host: string, b: string, raw: seq<RawHash>): UploadRequest
    requires DecodePubkey33(peer).Some? && DecodeBatchId16(b).Some? && ParseBatch(raw).Some? && raw != []
  {
    ParsedIsConsecutive(raw);
    var leaves := Leaves(sha, DecodePubkey33(peer).value, DecodeBatchId16(b).value, LeafInputs(ParseBatch(raw).value));
    UploadRequest(peer, PROTOCOL_VERSION, raw, Some(Commitment(b, host, EncodeToString(Root(sha, leaves)), |raw|)))
  }

  /** Such an upload of new hashes is accepted and stamps them with its batch id, whether or
      not that id was used before. */
  lemma CommittedUploadStamps(h: Hashes, s: Server, peer: string, host: string, b: string, raw: seq<RawHash>)
    requires ServerInv(s) && ParseBatch(raw).Some? && 0 < |raw| <= BATCH_MAX_SIZE
    requires DecodePubkey33(peer).Some? && DecodePubkey33(host).Some? && DecodeBatchId16(b).Some?
    requires Appends(s.db.pool, peer, Count(s, peer), ParseBatch(raw).value)
    ensures var req := Committing(h.sha, peer, host, b, raw);
            Stamps(h, s, OpUpload(req), b) && (b !in s.db.batches ==> FreshCommit(h, s, req))
  {
    var req, hashes := Committing(h.sha, peer, host, b, raw), ParseBatch(raw).value;
    ParsedIsConsecutive(raw);
    UploadAcceptedIff(h, s, req);
    assert !AllPresent(s.db.pool, peer, hashes) by {
      assert Key(peer, hashes[0].hashIndex) !in s.db.pool;
    }
    AcceptedIsPresent(h, s, req);
  }

  /** An upload of new hashes under a stored batch's id, if it is accepted, and from then on,
      whatever happens later, no rebuilt proof verifies under that id: not for the first
      upload's hashes, and not for the second's, under neither commitment. */
  lemma ReuseEndsProofs(h: Hashes, s: Server, peer: string, c: Commitment, hashes: seq<Entry>, second: UploadRequest,
                        later: seq<Op>, keys: seq<Key>, at: Key, asked: Commitment, e: Entry, buffers: set<Bytes>)
    requires ServerInv(s) && Stored(h.sha, s.db, peer, c, hashes) && asked.batchId == c.batchId
    requires RebuildIsCollisionFree(h.sha, Run(h, s, [OpUpload(second)] + later).db, peer, c, hashes, keys, buffers)
    ensures Stamps(h, s, OpUpload(second), c.batchId) ==>
              !ProvesHash(h.sha, BuildProof(h.sha, Run(h, s, [OpUpload(second)] + later).db, at, keys), peer, asked, e)
  {
    assert ([OpUpload(second)] + later)[0] == OpUpload(second);
    StampEndsProofs(h, s, peer, c, hashes, [OpUpload(second)] + later, keys, at, asked, e, buffers);
  }

  // ---------------------------------------------------------------- replays with a new commitment

  /** Rows keep the stamp they have, so a row stamped otherwise is never proved under this id. */
  lemma OtherStampProvesNothing(h: Hashes, s: Server, later: seq<Op>, peer: string, c: Commitment, e: Entry, keys: seq<Key>)
    requires ServerInv(s) && Key(peer, e.hashIndex) in s.db.pool && s.db.pool[Key(peer, e.hashIndex)].batchId != Some(c.batchId)
    requires forall k :: k in keys ==> k in Run(h, s, later).db.pool
    ensures var db := Run(h, s, later).db;
            !ProvesHash(h.sha, BuildProof(h.sha, db, Key(peer, e.hashIndex), keys), peer, c, e)
  {
    RunGrowsPool(h, s, later);
  }

  /** Sending stored hashes again with a commitment of an unused id is accepted and stores the
      commitment, but stamps nothing. */
  lemma ReplayStampsNothing(h: Hashes, s: Server, req: UploadRequest)
    requires ServerInv(s) && UploadResult(h, s.db, req).Ok? && req.batch.Some? && req.batch.value.batchId !in s.db.batches
    ensures AllPresent(s.db.pool, req.peer, ParseBatch(req.hashes).value) ==>
              var (db', b) := (Exec(h, s, OpUpload(req)).db, req.batch.value.batchId);
              b in db'.batches && db'.pool == s.db.pool && forall k :: k in db'.pool ==> db'.pool[k].batchId != Some(b)
  {
    assert OrderInv(s, req.peer);
    UploadAcceptedIff(h, s, req);
    UploadDoes(h, s, req);
    UnusedBatchHasNoRows(s, req.batch.value.batchId);
    if AllPresent(s.db.pool, req.peer, ParseBatch(req.hashes).value) {
      assert Key(req.peer, ParseBatch(req.hashes).value[0].hashIndex) in s.db.pool;
    }
  }

  /** Over some list of stored rows, this hash's rebuilt proof verifies. */
  ghost predicate HasProof(h: Hashes, db: Db, peer: string, c: Commitment, e: Entry) {
    exists keys: seq<Key> ::
      (forall k :: k in keys ==> k in db.pool)
      && ProvesHash(h.sha, BuildProof(h.sha, db, Key(peer, e.hashIndex), keys), peer, c, e)
  }

  function KeysOf(peer: string, hashes: seq<Entry>): (keys: seq<Key>)
    ensures |keys| == |hashes| && forall i :: 0 <= i < |keys| ==> keys[i] == Key(peer, hashes[i].hashIndex)
  {
    seq(|hashes|, i requires 0 <= i < |hashes| => Key(peer, hashes[i].hashIndex))
  }

  lemma BatchIsSelection(pool: map<Key, PoolRow>, peer: string, b: string, hashes: seq<Entry>)
    requires ExactRows(pool, peer, b, hashes)
    ensures IsBatchSelection(pool, b, KeysOf(peer, hashes))
  {
    var keys := KeysOf(peer, hashes);
    forall k | k in pool && pool[k].batchId == Some(b) ensures k in keys {
      assert keys[k.n - hashes[0].hashIndex] == k;
    }
  }

  /** An accepted upload with a commitment of an unused id has proofs under it, now and after
      any run that stamps no further rows with the id, exactly when its hashes were new. */
  lemma CommitmentHasProofsIff(h: Hashes, s: Server, req: UploadRequest, later: seq<Op>, i: nat)
    requires ServerInv(s) && UploadResult(h, s.db, req).Ok? && req.batch.Some? && req.batch.value.batchId !in s.db.batches
    requires NeverStamped(h, Exec(h, s, OpUpload(req)), later, req.batch.value.batchId)
    requires ParseBatch(req.hashes).Some? && i < |req.hashes|
    ensures var (db, e) := (Run(h, Exec(h, s, OpUpload(req)), later).db, ParseBatch(req.hashes).value[i]);
            HasProof(h, db, req.peer, req.batch.value, e)
            <==> !AllPresent(s.db.pool, req.peer, ParseBatch(req.hashes).value)
  {
    var s1, hashes, c := Exec(h, s, OpUpload(req)), ParseBatch(req.hashes).value, req.batch.value;
    var db, e := Run(h, s1, later).db, hashes[i];
    StepKeepsInv(h, s, OpUpload(req));
    if AllPresent(s.db.pool, req.peer, hashes) {
      ReplayStampsNothing(h, s, req);
      assert Key(req.peer, e.hashIndex) in s1.db.pool;
      forall keys: seq<Key> | forall k :: k in keys ==> k in db.pool
        ensures !ProvesHash(h.sha, BuildProof(h.sha, db, Key(req.peer, e.hashIndex), keys), req.peer, c, e)
      {
        OtherStampProvesNothing(h, s1, later, req.peer, c, e, keys);
      }
    } else {
      FreshBatchIsExclusive(h, s, req);
      BatchSurvivesRun(h, s1, later, req.peer, c, hashes);
      BatchIsSelection(db.pool, req.peer, c.batchId, hashes);
      UploadToProof(h, s, req, later, KeysOf(req.peer, hashes), i);
    }
  }

  // ---------------------------------------------------------------- from the empty store

  function OneRaw(index: int, x: Digest): seq<RawHash> { [RawHash(Some(index), EncodeToString(x))] }

  /** From the empty store, for any keys and batch id: two one-hash uploads under that id, both
      accepted. */
  lemma BatchIdIsReused(h: Hashes, rpk: Pubkey33, hpk: Pubkey33, bid: BatchId16, x: Digest, y: Digest)
    requires x != y
    ensures DecodePubkey33(EncodeToString(rpk)).Some? && DecodeBatchId16(EncodeToString(bid)).Some?
    ensures ParseBatch(OneRaw(1, x)).Some? && ParseBatch(OneRaw(2, y)).Some?
    ensures var (peer, host, b) := (EncodeToString(rpk), EncodeToString(hpk), EncodeToString(bid));
            var (first, second) := (Committing(h.sha, peer, host, b, OneRaw(1, x)), Committing(h.sha, peer, host, b, OneRaw(2, y)));
            FreshCommit(h, EMPTY, first) && !NeverStamped(h, Exec(h, EMPTY, OpUpload(first)), [OpUpload(second)], b)
  {
    KeysExist(rpk, bid);
    KeysExist(hpk, bid);
    TwoUploadsStamp(h, EncodeToString(rpk), EncodeToString(hpk), EncodeToString(bid), x, y);
  }

  /** Keys and batch ids exist as text. */
  lemma KeysExist(rpk: Pubkey33, bid: BatchId16)
    ensures DecodePubkey33(EncodeToString(rpk)) == Some(rpk) && DecodeBatchId16(EncodeToString(bid)) == Some(bid)
  {
    DecodeEncode(rpk);
    DecodeEncode(bid);
  }

  lemma TwoUploadsStamp(h: Hashes, peer: string, host: string, b: string, x: Digest, y: Digest)
    requires DecodePubkey33(peer).Some? && DecodePubkey33(host).Some? && DecodeBatchId16(b).Some? && x != y
    ensures ParseBatch(OneRaw(1, x)).Some? && ParseBatch(OneRaw(2, y)).Some?
    ensures var (first, second) := (Committing(h.sha, peer, host, b, OneRaw(1, x)), Committing(h.sha, peer, host, b, OneRaw(2, y)));
            FreshCommit(h, EMPTY, first) && !NeverStamped(h, Exec(h, EMPTY, OpUpload(first)), [OpUpload(second)], b)
  {
    OneHash(1, x);
    OneHash(2, y);
    EmptyServerInv();
    FirstAppends(peer, Entry(1, EncodeToString(x)));
    CommittedUploadStamps(h, EMPTY, peer, host, b, OneRaw(1, x));
    var first := Committing(h.sha, peer, host, b, OneRaw(1, x));
    var s1 := Exec(h, EMPTY, OpUpload(first));
    StepKeepsInv(h, EMPTY, OpUpload(first));
    AppendOrNothing(h, EMPTY, first);
    DecodeEncode(x);
    DecodeEncode(y);
    SecondAppends(s1, peer, Entry(1, EncodeToString(x)), Entry(2, EncodeToString(y)), Some(b));
    CommittedUploadStamps(h, s1, peer, host, b, OneRaw(2, y));
  }

  lemma OneHash(index: int, x: Digest)
    requires 0 < index <= MAX_INT64
    ensures ParseBatch(OneRaw(index, x)) == Some([Entry(index, EncodeToString(x))])
  {
    EncodedIsLowerHex(x);
    var raw := OneRaw(index, x);
    assert ParsesAt(raw, 0);
    assert ParseBatch(raw).value[0] == Entry(index, EncodeToString(x));
    assert ParseBatch(raw).value == [Entry(index, EncodeToString(x))];
  }

  lemma FirstAppends(peer: string, e: Entry)
    requires e.hashIndex == 1
    ensures Appends(EMPTY.db.pool, peer, Count(EMPTY, peer), [e])
  {
    EmptyServerInv();
    assert OrderInv(EMPTY, peer);
    LiveIsTail(EMPTY, peer);
    assert !RepeatsHash([e], 0);
  }

  lemma SecondAppends(s1: Server, peer: string, e: Entry, f: Entry, batchId: Option<string>)
    requires ServerInv(s1) && AppendedExactly(EMPTY, s1, peer, [e], batchId)
    requires e.hashIndex == 1 && f.hashIndex == 2 && f.paymentHash != e.paymentHash
    ensures Appends(s1.db.pool, peer, Count(s1, peer), [f])
  {
    assert OrderInv(s1, peer);
    assert Count(EMPTY, peer) == 0;
    assert [e][0] == e && s1.db.pool[Key(peer, 1 + 0)].paymentHash == e.paymentHash;
    assert Key(peer, 2) !in s1.db.pool;
    assert Count(s1, peer) == 1;
    LiveIsTail(s1, peer);
    assert !RepeatsHash([f], 0);
    forall k | k in s1.db.pool && k.peer == peer ensures s1.db.pool[k].paymentHash != f.paymentHash {
      assert k == Key(peer, 1);
    }
  }
}
