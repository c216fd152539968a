/** Rebuilding an invoice's inclusion proof from stored rows: while a batch alone carries its
    stamp, every one of its hashes gets a proof that verifies against the stored root. */
module ApayProof {
  import opened Wrappers
  import opened Hex
  import opened ApayMerkle
  import opened ApayPool
  import opened Inv = ApayInvoice
  import opened ApayServer
  import opened ApayRuns
  import opened ApayPoolTheorems

  datatype InvoiceProof = InvoiceProof(
    recipient: string, host: string, batchId: string, hashIndex: int, paymentHash: string,
    root: string, size: nat, merkleProof: seq<MerkleProofElement>)

  datatype ProofOutcome = NoProof | ProofError | Proved(proof: InvoiceProof)

  /** An answer to "rows of this batch ordered by hash index". Rows of different orders may
      tie; any order among them is allowed. */
  ghost predicate IsBatchSelection(pool: map<Key, PoolRow>, b: string, keys: seq<Key>) {
    && (forall k :: k in keys <==> k in pool && pool[k].batchId == Some(b))
    && (forall i, j :: 0 <= i < j < |keys| ==> keys[i].n <= keys[j].n && keys[i] != keys[j])
  }

  /** The conversion of a signed 64-bit index to unsigned. */
  function ToUint64(n: int): nat {
    if n >= 0 then n else n % 0x1_0000_0000_0000_0000
  }

  function EntryOfRow(k: Key, row: PoolRow): Option<LeafInput> {
    match DecodeHash32(row.paymentHash)
    case Some(d) => Some(LeafInput(ToUint64(k.n), d))
    case None => None
  }

  /** The leaves of the selected rows; none when a stored hash does not decode. */
  function SelectedEntries(pool: map<Key, PoolRow>, keys: seq<Key>): (r: Option<seq<LeafInput>>)
    requires forall k :: k in keys ==> k in pool
    ensures r.Some? ==> |r.value| == |keys|
    ensures r.Some? <==> forall i :: 0 <= i < |keys| ==> EntryOfRow(keys[i], pool[keys[i]]).Some?
    ensures r.Some? ==> forall i :: 0 <= i < |keys| ==> EntryOfRow(keys[i], pool[keys[i]]) == Some(r.value[i])
  {
    if keys == [] then Some([])
    else
      var last := |keys| - 1;
      assert keys[last] in keys;
      assert forall i :: 0 <= i < last ==> keys[..last][i] == keys[i] && keys[i] in keys;
      match (SelectedEntries(pool, keys[..last]), EntryOfRow(keys[last], pool[keys[last]]))
      case (Some(front), Some(e)) => Some(front + [e])
      case _ => None
  }

  /** The last position with this hash index. */
  function LastAt(keys: seq<Key>, idx: int): (r: Option<nat>)
    ensures r.Some? ==> r.value < |keys| && keys[r.value].n == idx
    ensures r.None? ==> forall i :: 0 <= i < |keys| ==> keys[i].n != idx
    ensures r.Some? ==> forall i :: r.value < i < |keys| ==> keys[i].n != idx
  {
    if keys == [] then None
    else if keys[|keys| - 1].n == idx then Some(|keys| - 1)
    else LastAt(keys[..|keys| - 1], idx)
  }

  function BuildProof(sha: Sha, db: Db, at: Key, keys: seq<Key>): ProofOutcome
    requires forall k :: k in keys ==> k in db.pool
  {
    if at !in db.pool || db.pool[at].batchId == None || db.pool[at].batchId == Some("") then NoProof
    else
      var b := db.pool[at].batchId.value;
      if b !in db.batches then NoProof
      else
        var batch := db.batches[b];
        match (DecodePubkey33(batch.recipient), DecodeBatchId16(b), SelectedEntries(db.pool, keys), LastAt(keys, at.n))
        case (Some(rpk), Some(bid), Some(entries), Some(target)) =>
          Proved(InvoiceProof(batch.recipient, batch.host, b, at.n, db.pool[keys[target]].paymentHash, batch.root, batch.size,
                              Proof(sha, Leaves(sha, rpk, bid, entries), target)))
        case _ => ProofError
  }

  /** When there is no proof, and when rebuilding it fails: none for a hash not stored, uploaded
      without a batch, or whose batch is not stored; an error when a key, the batch id or a
      selected hash does not decode, or the index is not among the rows. */
  lemma BuildProofOutcome(sha: Sha, db: Db, at: Key, keys: seq<Key>)
    requires forall k :: k in keys ==> k in db.pool
    ensures var r := BuildProof(sha, db, at, keys);
            && (r == NoProof <==> at !in db.pool || db.pool[at].batchId in {None, Some("")} || db.pool[at].batchId.value !in db.batches)
            && (r.Proved? <==> r != NoProof && var b := db.pool[at].batchId.value;
                  && DecodePubkey33(db.batches[b].recipient).Some? && DecodeBatchId16(b).Some?
                  && (forall k :: k in keys ==> DecodeHash32(db.pool[k].paymentHash).Some?)
                  && (exists k :: k in keys && k.n == at.n))
            && (r.Proved? ==> var (b, p) := (db.pool[at].batchId.value, r.proof);
                  && p.recipient == db.batches[b].recipient && p.host == db.batches[b].host && p.root == db.batches[b].root
                  && p.size == db.batches[b].size && p.batchId == b && p.hashIndex == at.n
                  && exists k :: k in keys && k.n == at.n && p.paymentHash == db.pool[k].paymentHash)
  {
    if at in db.pool && db.pool[at].batchId.Some? && db.pool[at].batchId.value in db.batches {
      var entries, target := SelectedEntries(db.pool, keys), LastAt(keys, at.n);
      assert entries.Some? <==> forall k :: k in keys ==> DecodeHash32(db.pool[k].paymentHash).Some? by {
        assert forall i :: 0 <= i < |keys| ==> (EntryOfRow(keys[i], db.pool[keys[i]]).Some? <==> DecodeHash32(db.pool[keys[i]].paymentHash).Some?);
      }
      if target.Some? {
        assert keys[target.value] in keys;
      }
    }
  }

  /** The outcome is a proof of this hash under this commitment that a verifier accepts. */
  ghost predicate ProvesHash(sha: Sha, outcome: ProofOutcome, peer: string, c: Commitment, e: Entry) {
    && outcome.Proved?
    && var p := outcome.proof;
    && p.recipient == peer && p.host == c.host && p.batchId == c.batchId && p.root == c.root && p.size == c.size
    && p.hashIndex == e.hashIndex && p.paymentHash == e.paymentHash
    && e.hashIndex > 0 && IsPaymentHash(e.paymentHash)
    && DecodePubkey33(peer).Some? && DecodeBatchId16(c.batchId).Some? && DecodeHash32(c.root).Some?
    && Verifies(sha, LeafHash(sha, DecodePubkey33(peer).value, DecodeBatchId16(c.batchId).value, LeafOf(e)),
                p.merkleProof, DecodeHash32(c.root).value)
  }

  // ---------------------------------------------------------------- a batch's rows

  /** The batch is stored as committed and its hashes carry its stamp. */
  ghost predicate Stored(sha: Sha, db: Db, peer: string, c: Commitment, hashes: seq<Entry>) {
    && hashes != [] && Consecutive(hashes) && CommitmentValid(sha, peer, c, hashes)
    && c.batchId != "" && c.batchId in db.batches && db.batches[c.batchId] == Batch(peer, c.host, c.root, c.size)
    && forall i :: 0 <= i < |hashes| ==>
         var k := Key(peer, hashes[i].hashIndex);
         k in db.pool && db.pool[k].paymentHash == hashes[i].paymentHash && db.pool[k].batchId == Some(c.batchId)
  }

  /** No other row carries the stamp. */
  ghost predicate Exclusive(db: Db, peer: string, b: string, hashes: seq<Entry>)
    requires hashes != []
  {
    forall k :: k in db.pool && db.pool[k].batchId == Some(b) ==>
      k.peer == peer && hashes[0].hashIndex <= k.n < hashes[0].hashIndex + |hashes|
  }

  /** The stamped rows are exactly these hashes. */
  ghost predicate ExactRows(pool: map<Key, PoolRow>, peer: string, b: string, hashes: seq<Entry>) {
    && hashes != [] && Consecutive(hashes)
    && (forall i :: 0 <= i < |hashes| ==>
          var k := Key(peer, hashes[i].hashIndex);
          k in pool && pool[k].paymentHash == hashes[i].paymentHash && pool[k].batchId == Some(b))
    && (forall k :: k in pool && pool[k].batchId == Some(b) ==>
          k.peer == peer && hashes[0].hashIndex <= k.n < hashes[0].hashIndex + |hashes|)
  }

  /** Sorting by hash index recovers the upload order. */
  lemma {:induction false} SelectionPrefix(pool: map<Key, PoolRow>, peer: string, b: string, hashes: seq<Entry>, keys: seq<Key>, i: nat)
    requires ExactRows(pool, peer, b, hashes) && IsBatchSelection(pool, b, keys) && i < |hashes|
    ensures i < |keys| && keys[i] == Key(peer, hashes[i].hashIndex)
    decreases i
  {
    var start := hashes[0].hashIndex;
    forall j | 0 <= j < i ensures j < |keys| && keys[j] == Key(peer, start + j) {
      SelectionPrefix(pool, peer, b, hashes, keys, j);
    }
    assert Key(peer, hashes[i].hashIndex) in keys;
    var q :| 0 <= q < |keys| && keys[q] == Key(peer, start + i);
    assert q >= i;
    assert keys[i] in keys && keys[i].peer == peer;
    assert keys[i].n >= start + i by {
      if i > 0 {
        assert keys[i - 1] == Key(peer, start + i - 1);
        assert keys[i - 1].n <= keys[i].n && keys[i - 1] != keys[i];
      }
    }
  }

  lemma {:induction false} SelectionClimbs(pool: map<Key, PoolRow>, peer: string, b: string, hashes: seq<Entry>, keys: seq<Key>, i: nat)
    requires ExactRows(pool, peer, b, hashes) && IsBatchSelection(pool, b, keys) && i < |keys|
    ensures keys[i].n >= hashes[0].hashIndex + i
  {
    assert keys[i] in keys;
    if i > 0 {
      SelectionClimbs(pool, peer, b, hashes, keys, i - 1);
      assert keys[i - 1] in keys && keys[i - 1].n <= keys[i].n && keys[i - 1] != keys[i];
    }
  }

  lemma SelectionIsBatch(pool: map<Key, PoolRow>, peer: string, b: string, hashes: seq<Entry>, keys: seq<Key>)
    requires ExactRows(pool, peer, b, hashes) && IsBatchSelection(pool, b, keys)
    ensures |keys| == |hashes| && forall i :: 0 <= i < |hashes| ==> keys[i] == Key(peer, hashes[i].hashIndex)
  {
    forall i | 0 <= i < |hashes| ensures i < |keys| && keys[i] == Key(peer, hashes[i].hashIndex) {
      SelectionPrefix(pool, peer, b, hashes, keys, i);
    }
    SelectionPrefix(pool, peer, b, hashes, keys, |hashes| - 1);
    SelectionClimbs(pool, peer, b, hashes, keys, |keys| - 1);
    assert keys[|keys| - 1] in keys;
  }

  lemma SelectedAreLeaves(pool: map<Key, PoolRow>, peer: string, b: string, hashes: seq<Entry>, keys: seq<Key>)
    requires ExactRows(pool, peer, b, hashes) && IsBatchSelection(pool, b, keys)
    ensures SelectedEntries(pool, keys) == Some(LeafInputs(hashes))
  {
    SelectionIsBatch(pool, peer, b, hashes, keys);
    forall j | 0 <= j < |hashes| ensures EntryOfRow(keys[j], pool[keys[j]]) == Some(LeafOf(hashes[j])) {
      PaymentHashDecodes(hashes[j].paymentHash);
    }
    var r := SelectedEntries(pool, keys).value;
    forall j | 0 <= j < |hashes| ensures r[j] == LeafInputs(hashes)[j] {
      assert EntryOfRow(keys[j], pool[keys[j]]) == Some(r[j]);
    }
    assert r == LeafInputs(hashes);
  }

  lemma LastAtIs(keys: seq<Key>, idx: int, i: nat)
    requires i < |keys| && keys[i].n == idx && forall j :: i < j < |keys| ==> keys[j].n != idx
    ensures LastAt(keys, idx) == Some(i)
  {}

  lemma SelectedAt(pool: map<Key, PoolRow>, peer: string, b: string, hashes: seq<Entry>, keys: seq<Key>, i: nat)
    requires ExactRows(pool, peer, b, hashes) && IsBatchSelection(pool, b, keys) && i < |hashes|
    ensures LastAt(keys, hashes[i].hashIndex) == Some(i) && i < |keys| && keys[i] == Key(peer, hashes[i].hashIndex)
  {
    SelectionIsBatch(pool, peer, b, hashes, keys);
    LastAtIs(keys, hashes[i].hashIndex, i);
  }

  /** What the outcome is once every part of it is there. */
  lemma BuildsFrom(sha: Sha, db: Db, at: Key, keys: seq<Key>, entries: seq<LeafInput>, target: nat)
    requires forall k :: k in keys ==> k in db.pool
    requires at in db.pool && db.pool[at].batchId.Some? && db.pool[at].batchId != Some("") && db.pool[at].batchId.value in db.batches
    requires var b := db.pool[at].batchId.value; DecodePubkey33(db.batches[b].recipient).Some? && DecodeBatchId16(b).Some?
    requires SelectedEntries(db.pool, keys) == Some(entries) && LastAt(keys, at.n) == Some(target) && target < |entries|
    ensures var b := db.pool[at].batchId.value; var batch := db.batches[b];
            var leaves := Leaves(sha, DecodePubkey33(batch.recipient).value, DecodeBatchId16(b).value, entries);
            BuildProof(sha, db, at, keys)
            == Proved(InvoiceProof(batch.recipient, batch.host, b, at.n, db.pool[keys[target]].paymentHash, batch.root, batch.size,
                                   Proof(sha, leaves, target)))
  {}

  /** While the stamp is exclusive, the rebuilt proof is the committed tree's own. */
  lemma ExclusiveBatchBuilds(sha: Sha, db: Db, peer: string, c: Commitment, hashes: seq<Entry>, keys: seq<Key>, i: nat)
    requires Stored(sha, db, peer, c, hashes) && Exclusive(db, peer, c.batchId, hashes)
    requires IsBatchSelection(db.pool, c.batchId, keys) && i < |hashes|
    ensures var (rpk, bid, e) := (DecodePubkey33(peer).value, DecodeBatchId16(c.batchId).value, hashes[i]);
            BuildProof(sha, db, Key(peer, e.hashIndex), keys)
            == Proved(InvoiceProof(peer, c.host, c.batchId, e.hashIndex, e.paymentHash, c.root, c.size,
                                   Proof(sha, Leaves(sha, rpk, bid, LeafInputs(hashes)), i)))
  {
    assert ExactRows(db.pool, peer, c.batchId, hashes);
    SelectedAreLeaves(db.pool, peer, c.batchId, hashes, keys);
    SelectedAt(db.pool, peer, c.batchId, hashes, keys, i);
    BuildsFrom(sha, db, Key(peer, hashes[i].hashIndex), keys, LeafInputs(hashes), i);
  }

  /** So every hash of the batch gets a verifying proof. */
  lemma ExclusiveBatchProves(sha: Sha, db: Db, peer: string, c: Commitment, hashes: seq<Entry>, keys: seq<Key>, i: nat)
    requires Stored(sha, db, peer, c, hashes) && Exclusive(db, peer, c.batchId, hashes)
    requires IsBatchSelection(db.pool, c.batchId, keys) && i < |hashes|
    ensures ProvesHash(sha, BuildProof(sha, db, Key(peer, hashes[i].hashIndex), keys), peer, c, hashes[i])
  {
    ExclusiveBatchBuilds(sha, db, peer, c, hashes, keys, i);
    var leaves := Leaves(sha, DecodePubkey33(peer).value, DecodeBatchId16(c.batchId).value, LeafInputs(hashes));
    Completeness(sha, leaves, i);
    DecodeEncode(Root(sha, leaves));
  }
}
