/** The hash pool of a hosted address and the invoice slots it backs: uploading batches,
    reserving, finalizing and releasing slots. Each table is a map over its UNIQUE key. */
module ApayPool {
  import opened Wrappers
  import opened Hex
  import opened ApayMerkle
  import Inv = ApayInvoice

  const PROTOCOL_VERSION := 1
  const BATCH_MAX_SIZE := 200
  const POOL_MAX_SIZE := 400
  const MAX_INT64 := 0x7FFF_FFFF_FFFF_FFFF

  /** A row's place within an order: a hash index in the pool, a slot among the invoices. */
  datatype Key = Key(peer: string, n: int)

  datatype PoolStatus = Available | Reserved | Consumed
  datatype PoolRow = PoolRow(paymentHash: string, status: PoolStatus, batchId: Option<string>)
  datatype Order = Order(acceptedThrough: Option<int>, currentSlot: Option<int>)
  datatype Batch = Batch(recipient: string, host: string, root: string, size: nat)

  datatype Db = Db(orders: map<string, Order>, pool: map<Key, PoolRow>,
                   invoices: map<Key, Inv.Invoice>, batches: map<string, Batch>)

  datatype RawHash = RawHash(hashIndex: Option<int>, paymentHash: string)
  datatype Entry = Entry(hashIndex: int, paymentHash: string)
  datatype Commitment = Commitment(batchId: string, host: string, root: string, size: nat)
  datatype UploadRequest = UploadRequest(peer: string, version: nat, hashes: seq<RawHash>, batch: Option<Commitment>)
  datatype UploadResponse = UploadResponse(acceptedThrough: int, nextIndexExpected: int)

  datatype OrderError =
    | InvalidHashBatch | UnsupportedVersion | DuplicateIndexConflict | DuplicateHashConflict
    | InternalError | EmptyPeer | PoolEmpty | UniqueViolation | NotFound | WrongState

  // ---------------------------------------------------------------- parsing a batch

  predicate ParsesAt(raw: seq<RawHash>, i: nat)
    requires i < |raw|
  {
    && raw[i].hashIndex.Some? && 0 < raw[i].hashIndex.value <= MAX_INT64
    && IsPaymentHash(raw[i].paymentHash)
    && (i > 0 && raw[i - 1].hashIndex.Some? ==> raw[i].hashIndex.value == raw[i - 1].hashIndex.value + 1)
  }

  /** All entries well-formed with consecutive indices, or nothing. */
  function ParseBatch(raw: seq<RawHash>): Option<seq<Entry>> {
    if forall i :: 0 <= i < |raw| ==> ParsesAt(raw, i)
    then Some(seq(|raw|, i requires 0 <= i < |raw| && ParsesAt(raw, i) => Entry(raw[i].hashIndex.value, raw[i].paymentHash)))
    else None
  }

  predicate Consecutive(hashes: seq<Entry>) {
    && (forall i :: 0 <= i < |hashes| ==> hashes[i].hashIndex == hashes[0].hashIndex + i)
    && (forall i :: 0 <= i < |hashes| ==> 0 < hashes[i].hashIndex <= MAX_INT64 && IsPaymentHash(hashes[i].paymentHash))
  }

  lemma {:induction false} ParsedIndex(raw: seq<RawHash>, i: nat)
    requires ParseBatch(raw).Some? && i < |raw|
    ensures ParseBatch(raw).value[i].hashIndex == ParseBatch(raw).value[0].hashIndex + i
  {
    assert ParsesAt(raw, i);
    if i > 0 {
      assert ParsesAt(raw, i - 1);
      ParsedIndex(raw, i - 1);
    }
  }

  /** Parsing forces consecutive indices, which is what lets sorting by index recover the
      upload order later. */
  lemma ParsedIsConsecutive(raw: seq<RawHash>)
    requires ParseBatch(raw).Some?
    ensures Consecutive(ParseBatch(raw).value) && |ParseBatch(raw).value| == |raw|
  {
    forall i | 0 <= i < |raw|
      ensures ParseBatch(raw).value[i].hashIndex == ParseBatch(raw).value[0].hashIndex + i
      ensures 0 < ParseBatch(raw).value[i].hashIndex <= MAX_INT64 && IsPaymentHash(ParseBatch(raw).value[i].paymentHash)
    {
      assert ParsesAt(raw, i);
      ParsedIndex(raw, i);
    }
  }

  // ---------------------------------------------------------------- commitments

  function LeafInputs(hashes: seq<Entry>): (r: seq<LeafInput>)
    requires forall i :: 0 <= i < |hashes| ==> hashes[i].hashIndex > 0 && IsPaymentHash(hashes[i].paymentHash)
    ensures |r| == |hashes|
  {
    seq(|hashes|, i requires 0 <= i < |hashes| => LeafOf(hashes[i]))
  }

  function LeafOf(e: Entry): LeafInput
    requires e.hashIndex > 0 && IsPaymentHash(e.paymentHash)
  {
    PaymentHashDecodes(e.paymentHash);
    LeafInput(e.hashIndex, DecodeHash32(e.paymentHash).value)
  }

  /** The commitment names decodable keys, this many hashes, and their Merkle root. */
  predicate CommitmentValid(sha: Sha, peer: string, c: Commitment, hashes: seq<Entry>)
    requires hashes != [] && Consecutive(hashes)
  {
    && DecodePubkey33(peer).Some? && DecodePubkey33(c.host).Some? && DecodeBatchId16(c.batchId).Some?
    && |hashes| == c.size
    && EncodeToString(Root(sha, Leaves(sha, DecodePubkey33(peer).value, DecodeBatchId16(c.batchId).value, LeafInputs(hashes))))
       == c.root
  }

  function Persisted(batches: map<string, Batch>, peer: string, c: Commitment): map<string, Batch> {
    if c.batchId in batches then batches
    else batches[c.batchId := Batch(peer, c.host, c.root, c.size)]
  }

  // ---------------------------------------------------------------- merging into the pool

  ghost predicate IsHighest(pool: map<Key, PoolRow>, peer: string, h: int) {
    && h >= 0 && (h > 0 ==> Key(peer, h) in pool)
    && forall i :: Key(peer, i) in pool ==> i <= h
  }

  function Live(pool: map<Key, PoolRow>, peer: string): nat {
    |set k | k in pool && k.peer == peer && pool[k].status != Consumed|
  }

  predicate HashElsewhere(pool: map<Key, PoolRow>, peer: string, e: Entry) {
    exists k :: k in pool && k.peer == peer && pool[k].paymentHash == e.paymentHash && k.n != e.hashIndex
  }

  predicate RepeatsHash(hashes: seq<Entry>, i: nat)
    requires i < |hashes|
  {
    exists j :: 0 <= j < i && hashes[j].paymentHash == hashes[i].paymentHash
  }

  function EntryConflict(pool: map<Key, PoolRow>, peer: string, hashes: seq<Entry>, i: nat): Option<OrderError>
    requires i < |hashes|
  {
    var k := Key(peer, hashes[i].hashIndex);
    if RepeatsHash(hashes, i) then Some(DuplicateHashConflict)
    else if k in pool && pool[k].paymentHash != hashes[i].paymentHash then Some(DuplicateIndexConflict)
    else if HashElsewhere(pool, peer, hashes[i]) then Some(DuplicateHashConflict)
    else None
  }

  /** The error of the first conflicting entry, in upload order. */
  function FirstConflict(pool: map<Key, PoolRow>, peer: string, hashes: seq<Entry>, i: nat): Option<OrderError>
    requires i <= |hashes|
    decreases |hashes| - i
  {
    if i == |hashes| then None
    else if EntryConflict(pool, peer, hashes, i).Some? then EntryConflict(pool, peer, hashes, i)
    else FirstConflict(pool, peer, hashes, i + 1)
  }

  predicate SomeExisting(pool: map<Key, PoolRow>, peer: string, hashes: seq<Entry>) {
    exists i :: 0 <= i < |hashes| && Key(peer, hashes[i].hashIndex) in pool
  }

  function Missing(pool: map<Key, PoolRow>, peer: string, hashes: seq<Entry>): (n: nat)
    ensures n <= |hashes|
  {
    if hashes == [] then 0
    else Missing(pool, peer, hashes[..|hashes| - 1])
         + if Key(peer, hashes[|hashes| - 1].hashIndex) in pool then 0 else 1
  }

  /** The new rows, each Available and stamped with the batch. */
  function Stamped(peer: string, hashes: seq<Entry>, batchId: Option<string>): map<Key, PoolRow> {
    if hashes == [] then map[]
    else
      var e := hashes[|hashes| - 1];
      Stamped(peer, hashes[..|hashes| - 1], batchId)[Key(peer, e.hashIndex) := PoolRow(e.paymentHash, Available, batchId)]
  }

  function AcceptedThrough(o: Order): int {
    if o.acceptedThrough.Some? then o.acceptedThrough.value else 0
  }

  datatype Merged = Merged(pool: map<Key, PoolRow>, acceptedThrough: int)

  /** The pool after a batch, given the highest index it holds for this order. */
  function Merge(pool: map<Key, PoolRow>, peer: string, accepted: int, highest: int,
                 hashes: seq<Entry>, batchId: Option<string>): Result<Merged, OrderError>
    requires hashes != []
  {
    if accepted > highest then Err(InternalError)
    else if FirstConflict(pool, peer, hashes, 0).Some? then Err(FirstConflict(pool, peer, hashes, 0).value)
    else if Live(pool, peer) + Missing(pool, peer, hashes) > POOL_MAX_SIZE then Err(InvalidHashBatch)
    else if SomeExisting(pool, peer, hashes) && Missing(pool, peer, hashes) > 0 then Err(InvalidHashBatch)
    else if SomeExisting(pool, peer, hashes) then Ok(Merged(pool, highest))
    else if hashes[0].hashIndex != highest + 1 then Err(InvalidHashBatch)
    else
      var last := hashes[|hashes| - 1].hashIndex;
      Ok(Merged(pool + Stamped(peer, hashes, batchId), if accepted > last then accepted else last))
  }
}
