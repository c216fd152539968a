/** The store behind the hosted-address handlers: tables as fields, one method per
    transaction. Every method is shown to take the step of the transition system of the same
    name, so it keeps the pool and slot invariant. */
module ApayStore {
  import opened Wrappers
  import opened Hex
  import opened ApayMerkle
  import opened ApayPool
  import Inv = ApayInvoice
  import opened ApayServer
  import opened ApayRuns
  import opened ApayProof

  method ParseAsyncOrderHashBatch(raw: seq<RawHash>) returns (r: Result<seq<Entry>, OrderError>)
    ensures r == match ParseBatch(raw) case Some(hashes) => Ok(hashes) case None => Err(InvalidHashBatch)
  {
    var parsed: seq<Entry> := [];
    var previous: Option<int> := None;
    for i := 0 to |raw|
      invariant |parsed| == i && forall j :: 0 <= j < i ==> ParsesAt(raw, j) && parsed[j] == Entry(raw[j].hashIndex.value, raw[j].paymentHash)
      invariant previous == if i > 0 then raw[i - 1].hashIndex else None
    {
      if raw[i].hashIndex == None || raw[i].hashIndex.value <= 0 || raw[i].hashIndex.value > MAX_INT64 {
        assert !ParsesAt(raw, i);
        return Err(InvalidHashBatch);
      }
      var index := raw[i].hashIndex.value;
      if !IsPaymentHash(raw[i].paymentHash) {
        assert !ParsesAt(raw, i);
        return Err(InvalidHashBatch);
      }
      if previous.Some? && index != previous.value + 1 {
        assert !ParsesAt(raw, i);
        return Err(InvalidHashBatch);
      }
      previous := Some(index);
      parsed := parsed + [Entry(index, raw[i].paymentHash)];
    }
    assert parsed == ParseBatch(raw).value;
    return Ok(parsed);
  }

  method ValidateApayBatchCommitment(sha: Sha, peer: string, c: Commitment, hashes: seq<Entry>) returns (valid: bool)
    requires hashes != [] && Consecutive(hashes)
    ensures valid == CommitmentValid(sha, peer, c, hashes)
  {
    var rpk, host, bid := DecodePubkey33(peer), DecodePubkey33(c.host), DecodeBatchId16(c.batchId);
    if rpk == None || host == None || bid == None || |hashes| != c.size {
      return false;
    }
    var entries: seq<LeafInput> := [];
    for i := 0 to |hashes|
      invariant entries == LeafInputs(hashes)[..i]
    {
      PaymentHashDecodes(hashes[i].paymentHash);
      entries := entries + [LeafInput(hashes[i].hashIndex, DecodeHash32(hashes[i].paymentHash).value)];
    }
    assert entries == LeafInputs(hashes);
    var leaves := ApayLeaves(sha, rpk.value, bid.value, entries);
    var root := MerkleRoot(sha, leaves);
    return EncodeToString(root) == c.root;
  }

  // ---------------------------------------------------------------- the merge, piece by piece

  /** The order's rows by index. */
  function Existing(pool: map<Key, PoolRow>, peer: string): map<int, string> {
    map k | k in pool && k.peer == peer :: k.n := pool[k].paymentHash
  }

  lemma ExistingAt(pool: map<Key, PoolRow>, peer: string, i: int)
    ensures i in Existing(pool, peer) <==> Key(peer, i) in pool
    ensures Key(peer, i) in pool ==> Existing(pool, peer)[i] == pool[Key(peer, i)].paymentHash
  {}

  /** Each stored hash leads back to its index, no hash being stored twice. */
  ghost predicate IsInverse(existing: map<int, string>, hashToIndex: map<string, int>) {
    && (forall i :: i in existing ==> existing[i] in hashToIndex && hashToIndex[existing[i]] == i)
    && (forall x :: x in hashToIndex ==> hashToIndex[x] in existing && existing[hashToIndex[x]] == x)
  }

  ghost predicate Injective(existing: map<int, string>) {
    forall i, j :: i in existing && j in existing && i != j ==> existing[i] != existing[j]
  }

  method IndexHashes(existing: map<int, string>) returns (highest: int, hashToIndex: map<string, int>)
    requires Injective(existing)
    ensures IsInverse(existing, hashToIndex)
    ensures highest >= 0 && (highest > 0 ==> highest in existing) && forall i :: i in existing ==> i <= highest
  {
    highest, hashToIndex := 0, map[];
    var rest := existing.Keys;
    while rest != {}
      invariant rest <= existing.Keys
      invariant highest >= 0 && (highest > 0 ==> highest in existing) && forall i :: i in existing && i !in rest ==> i <= highest
      invariant forall i :: i in existing && i !in rest ==> existing[i] in hashToIndex && hashToIndex[existing[i]] == i
      invariant forall x :: x in hashToIndex ==> hashToIndex[x] in existing && existing[hashToIndex[x]] == x
      decreases rest
    {
      assert (forall i :: i !in rest) ==> rest == {};
      var index :| index in rest;
      if index > highest {
        highest := index;
      }
      hashToIndex := hashToIndex[existing[index] := index];
      rest := rest - {index};
    }
  }

  lemma CheckIsConflict(pool: map<Key, PoolRow>, peer: string, hashToIndex: map<string, int>, hashes: seq<Entry>, i: nat)
    requires i < |hashes| && IsInverse(Existing(pool, peer), hashToIndex)
    ensures EntryConflict(pool, peer, hashes, i)
            == var e := hashes[i]; var existing := Existing(pool, peer);
               if RepeatsHash(hashes, i) then Some(DuplicateHashConflict)
               else if e.hashIndex in existing && existing[e.hashIndex] != e.paymentHash then Some(DuplicateIndexConflict)
               else if e.paymentHash in hashToIndex && hashToIndex[e.paymentHash] != e.hashIndex then Some(DuplicateHashConflict)
               else None
  {
    var e := hashes[i];
    ExistingAt(pool, peer, e.hashIndex);
    if HashElsewhere(pool, peer, e) {
      var k :| k in pool && k.peer == peer && pool[k].paymentHash == e.paymentHash && k.n != e.hashIndex;
      assert k == Key(peer, k.n);
      ExistingAt(pool, peer, k.n);
    }
    if e.paymentHash in hashToIndex && hashToIndex[e.paymentHash] != e.hashIndex {
      ExistingAt(pool, peer, hashToIndex[e.paymentHash]);
      assert HashElsewhere(pool, peer, e);
    }
  }

  /** One entry against the stored rows and the entries before it. */
  method CheckEntry(pool: map<Key, PoolRow>, peer: string, existing: map<int, string>, hashToIndex: map<string, int>,
                    seen: set<string>, hashes: seq<Entry>, i: nat) returns (error: Option<OrderError>)
    requires existing == Existing(pool, peer) && IsInverse(existing, hashToIndex)
    requires i < |hashes| && (hashes[i].paymentHash in seen <==> RepeatsHash(hashes, i))
    ensures error == EntryConflict(pool, peer, hashes, i)
  {
    CheckIsConflict(pool, peer, hashToIndex, hashes, i);
    var e := hashes[i];
    if e.paymentHash in seen {
      return Some(DuplicateHashConflict);
    }
    if e.hashIndex in existing && existing[e.hashIndex] != e.paymentHash {
      return Some(DuplicateIndexConflict);
    }
    if e.paymentHash in hashToIndex && hashToIndex[e.paymentHash] != e.hashIndex {
      return Some(DuplicateHashConflict);
    }
    return None;
  }

  predicate SawStored(pool: map<Key, PoolRow>, peer: string, hashes: seq<Entry>, n: nat, stored: bool)
    requires n <= |hashes|
  {
    exists j :: 0 <= j < n && (Key(peer, hashes[j].hashIndex) in pool) == stored
  }

  lemma SawStep(pool: map<Key, PoolRow>, peer: string, hashes: seq<Entry>, n: nat, stored: bool)
    requires n < |hashes|
    ensures SawStored(pool, peer, hashes, n + 1, stored)
            <==> SawStored(pool, peer, hashes, n, stored) || (Key(peer, hashes[n].hashIndex) in pool) == stored
  {}

  /** The first conflict in upload order, and whether the batch has stored and new indices. */
  method CheckBatch(pool: map<Key, PoolRow>, peer: string, hashToIndex: map<string, int>, hashes: seq<Entry>)
    returns (error: Option<OrderError>, sawExisting: bool, sawMissing: bool)
    requires IsInverse(Existing(pool, peer), hashToIndex)
    ensures error == FirstConflict(pool, peer, hashes, 0)
    ensures error == None ==> sawExisting == SawStored(pool, peer, hashes, |hashes|, true)
                              && sawMissing == SawStored(pool, peer, hashes, |hashes|, false)
  {
    var existing := Existing(pool, peer);
    var seen: set<string> := {};
    sawExisting, sawMissing := false, false;
    for i := 0 to |hashes|
      invariant FirstConflict(pool, peer, hashes, 0) == FirstConflict(pool, peer, hashes, i)
      invariant forall x :: x in seen <==> exists j :: 0 <= j < i && hashes[j].paymentHash == x
      invariant sawExisting == SawStored(pool, peer, hashes, i, true)
      invariant sawMissing == SawStored(pool, peer, hashes, i, false)
    {
      error := CheckEntry(pool, peer, existing, hashToIndex, seen, hashes, i);
      if error.Some? {
        return error, false, false;
      }
      seen := seen + {hashes[i].paymentHash};
      SawStep(pool, peer, hashes, i, true);
      SawStep(pool, peer, hashes, i, false);
      ExistingAt(pool, peer, hashes[i].hashIndex);
      if hashes[i].hashIndex in existing {
        sawExisting := true;
      } else {
        sawMissing := true;
      }
    }
    error := None;
  }

  method CountMissing(pool: map<Key, PoolRow>, peer: string, hashes: seq<Entry>) returns (count: nat)
    ensures count == Missing(pool, peer, hashes)
  {
    count := 0;
    for i := 0 to |hashes|
      invariant count == Missing(pool, peer, hashes[..i])
    {
      assert hashes[..i + 1][..i] == hashes[..i];
      if Key(peer, hashes[i].hashIndex) !in pool {
        count := count + 1;
      }
    }
    assert hashes[..|hashes|] == hashes;
  }

  lemma ExistingIsInjective(pool: map<Key, PoolRow>, peer: string)
    requires UniqueHashes(pool, peer)
    ensures Injective(Existing(pool, peer))
  {
    forall i, j | i in Existing(pool, peer) && j in Existing(pool, peer) && i != j
      ensures Existing(pool, peer)[i] != Existing(pool, peer)[j]
    {
      ExistingAt(pool, peer, i);
      ExistingAt(pool, peer, j);
    }
  }

  lemma HighestOfExisting(pool: map<Key, PoolRow>, peer: string, highest: int)
    requires highest >= 0 && (highest > 0 ==> highest in Existing(pool, peer))
    requires forall i :: i in Existing(pool, peer) ==> i <= highest
    ensures highest == Highest(pool, peer)
  {
    var h := Highest(pool, peer);
    ExistingAt(pool, peer, highest);
    ExistingAt(pool, peer, h);
  }

  /** What the tables and the answer come to, given the merge. */
  predicate Uploaded(before: Db, after: Db, req: UploadRequest, merged: Result<Merged, OrderError>, r: Result<UploadResponse, OrderError>) {
    match merged
    case Err(e) => r == Err(e) && after.invoices == before.invoices
    case Ok(m) =>
      && r == Ok(UploadResponse(m.acceptedThrough, m.acceptedThrough + 1))
      && after == Db(before.orders[req.peer := OrderOf(before, req.peer).(acceptedThrough := Some(m.acceptedThrough))], m.pool,
                     before.invoices,
                     if req.batch.Some? then Persisted(before.batches, req.peer, req.batch.value) else before.batches)
  }

  datatype MergeKind = Replay(highest: int) | Append

  lemma SawMeans(pool: map<Key, PoolRow>, peer: string, hashes: seq<Entry>)
    ensures SawStored(pool, peer, hashes, |hashes|, true) == SomeExisting(pool, peer, hashes)
    ensures SawStored(pool, peer, hashes, |hashes|, false) == (Missing(pool, peer, hashes) > 0)
  {
    MissingNone(pool, peer, hashes);
  }

  /** Everything the merge checks before it writes. */
  method CheckMerge(pool: map<Key, PoolRow>, peer: string, accepted: int, hashes: seq<Entry>, batchId: Option<string>)
    returns (r: Result<MergeKind, OrderError>)
    requires hashes != [] && UniqueHashes(pool, peer)
    ensures match Merge(pool, peer, accepted, Highest(pool, peer), hashes, batchId)
            case Err(e) => r == Err(e)
            case Ok(m) => r.Ok? && match r.value
              case Replay(highest) => m == Merged(pool, highest)
              case Append =>
                var last := hashes[|hashes| - 1].hashIndex;
                m == Merged(pool + Stamped(peer, hashes, batchId), if accepted > last then accepted else last)
  {
    var existing := Existing(pool, peer);
    ExistingIsInjective(pool, peer);
    var highest, hashToIndex := IndexHashes(existing);
    HighestOfExisting(pool, peer, highest);
    if accepted > highest {
      return Err(InternalError);
    }
    var error, sawExisting, sawMissing := CheckBatch(pool, peer, hashToIndex, hashes);
    if error.Some? {
      return Err(error.value);
    }
    SawMeans(pool, peer, hashes);
    var missing := CountMissing(pool, peer, hashes);
    if Live(pool, peer) + missing > POOL_MAX_SIZE {
      return Err(InvalidHashBatch);
    }
    if sawExisting && sawMissing {
      return Err(InvalidHashBatch);
    }
    if sawExisting {
      return Ok(Replay(highest));
    }
    if hashes[0].hashIndex != highest + 1 {
      return Err(InvalidHashBatch);
    }
    return Ok(Append);
  }

  /** The leaves of the batch's rows, and where among them the index stands. */
  method ReadEntries(pool: map<Key, PoolRow>, rows: seq<Key>, index: int)
    returns (entries: Option<seq<LeafInput>>, target: Option<nat>)
    requires forall k :: k in rows ==> k in pool
    ensures entries == SelectedEntries(pool, rows)
    ensures entries.Some? ==> target == LastAt(rows, index)
  {
    var read: seq<LeafInput> := [];
    target := None;
    for i := 0 to |rows|
      invariant forall j :: 0 <= j < i ==> rows[j] in rows
      invariant SelectedEntries(pool, rows[..i]) == Some(read)
      invariant target == LastAt(rows[..i], index)
    {
      assert rows[..i + 1][..i] == rows[..i] && rows[i] in rows;
      var e := EntryOfRow(rows[i], pool[rows[i]]);
      if e == None {
        return None, None;
      }
      if rows[i].n == index {
        target := Some(|read|);
      }
      read := read + [e.value];
    }
    assert rows[..|rows|] == rows;
    entries := Some(read);
  }

  // ---------------------------------------------------------------- the answer to a mark

  ghost predicate OnlyRowOf(invoices: map<Key, Inv.Invoice>, paymentHash: string, k: Key) {
    k in invoices && forall j :: j in invoices ==> (invoices[j].paymentHash == paymentHash <==> j == k)
  }

  predicate Moves(h: Hashes, row: Inv.Invoice, paymentHash: string, m: Inv.Mark) {
    row.paymentHash == paymentHash && Inv.MarkOutcome(h.shaHex, row, m) == Inv.Transitioned
  }

  ghost predicate SomeMoves(h: Hashes, invoices: map<Key, Inv.Invoice>, rest: set<Key>, paymentHash: string, m: Inv.Mark) {
    exists k :: k in invoices && k !in rest && Moves(h, invoices[k], paymentHash, m)
  }

  /** The answer, judged by all rows but `rest`: none has the hash and it is not found; or it
      says whether a row moves; and the hash's only row answers for itself. */
  ghost predicate Answers(h: Hashes, invoices: map<Key, Inv.Invoice>, rest: set<Key>, paymentHash: string, m: Inv.Mark,
                          r: Inv.MarkResult) {
    && ((forall k :: k in invoices && k !in rest ==> invoices[k].paymentHash != paymentHash) ==> r == Inv.NotFound)
    && (r == Inv.Transitioned <==> SomeMoves(h, invoices, rest, paymentHash, m))
    && (forall k :: k !in rest && OnlyRowOf(invoices, paymentHash, k) ==> r == Inv.MarkOutcome(h.shaHex, invoices[k], m))
  }

  method MarkOneRow(shaHex: Inv.ShaHex, row: Inv.Invoice, m: Inv.Mark) returns (row': Inv.Invoice)
    ensures row' == Inv.MarkRow(shaHex, row, m)
  {
    row' := row;
    if m.Accepts(shaHex, row) && row.status in m.From() {
      row' := Inv.Updated(row, m);
    }
  }

  method TransitionResult(h: Hashes, invoices: map<Key, Inv.Invoice>, paymentHash: string, m: Inv.Mark) returns (r: Inv.MarkResult)
    ensures Answers(h, invoices, {}, paymentHash, m, r)
  {
    r := Inv.NotFound;
    var rest := invoices.Keys;
    while rest != {}
      invariant rest <= invoices.Keys && Answers(h, invoices, rest, paymentHash, m, r)
      decreases rest
    {
      var k :| k in rest;
      ghost var before := r;
      if invoices[k].paymentHash == paymentHash && !r.Transitioned? {
        r := Inv.MarkOutcome(h.shaHex, invoices[k], m);
      }
      AnswerOneMore(h, invoices, rest, k, paymentHash, m, before, r);
      rest := rest - {k};
    }
  }

  lemma OneMoreMoves(h: Hashes, invoices: map<Key, Inv.Invoice>, rest: set<Key>, k: Key, paymentHash: string, m: Inv.Mark)
    requires k in rest && k in invoices
    ensures SomeMoves(h, invoices, rest - {k}, paymentHash, m)
            <==> SomeMoves(h, invoices, rest, paymentHash, m) || Moves(h, invoices[k], paymentHash, m)
  {}

  lemma AnswerOneMore(h: Hashes, invoices: map<Key, Inv.Invoice>, rest: set<Key>, k: Key, paymentHash: string, m: Inv.Mark,
                      before: Inv.MarkResult, r: Inv.MarkResult)
    requires Answers(h, invoices, rest, paymentHash, m, before) && k in rest && k in invoices
    requires r == if invoices[k].paymentHash == paymentHash && !before.Transitioned?
                  then Inv.MarkOutcome(h.shaHex, invoices[k], m) else before
    ensures Answers(h, invoices, rest - {k}, paymentHash, m, r)
  {
    OneMoreMoves(h, invoices, rest, k, paymentHash, m);
  }

  // ---------------------------------------------------------------- transactions

  class SQLStore {
    var orders: map<string, Order>
    var pool: map<Key, PoolRow>
    var invoices: map<Key, Inv.Invoice>
    var batches: map<string, Batch>
    ghost var open: set<Key>

    function Value(): Db
      reads this
    {
      Db(orders, pool, invoices, batches)
    }

    ghost function State(): Server
      reads this
    {
      Server(Value(), open)
    }

    ghost predicate Valid()
      reads this
    {
      ServerInv(State())
    }

    constructor ()
      ensures State() == EMPTY && Valid()
    {
      orders, pool, invoices, batches, open := map[], map[], map[], map[], {};
      new;
      EmptyServerInv();
    }

    method BootstrapAsyncOrder(peer: string) returns (order: Order)
      modifies this`orders
      ensures order == OrderOf(old(Value()), peer) && orders == old(orders)[peer := order]
    {
      if peer !in orders {
        orders := orders[peer := Order(None, None)];
      }
      order := orders[peer];
    }

    method PersistApayBatch(peer: string, c: Commitment)
      modifies this`batches
      ensures batches == Persisted(old(batches), peer, c)
    {
      if c.batchId !in batches {
        batches := batches[c.batchId := Batch(peer, c.host, c.root, c.size)];
      }
    }

    method InsertPoolRows(peer: string, hashes: seq<Entry>, batchId: Option<string>)
      modifies this`pool
      ensures pool == old(pool) + Stamped(peer, hashes, batchId)
    {
      for i := 0 to |hashes|
        invariant pool == old(pool) + Stamped(peer, hashes[..i], batchId)
      {
        assert hashes[..i + 1][..i] == hashes[..i];
        pool := pool[Key(peer, hashes[i].hashIndex) := PoolRow(hashes[i].paymentHash, PoolStatus.Available, batchId)];
      }
      assert hashes[..|hashes|] == hashes;
    }

    method MergeAsyncHashPool(peer: string, order: Order, hashes: seq<Entry>, batchId: Option<string>)
      returns (r: Result<int, OrderError>, ghost merged: Result<Merged, OrderError>)
      requires hashes != [] && UniqueHashes(pool, peer) && peer in orders && orders[peer] == order
      modifies this`pool, this`orders
      ensures merged == Merge(old(pool), peer, AcceptedThrough(order), Highest(old(pool), peer), hashes, batchId)
      ensures match merged
              case Err(e) => r == Err(e) && pool == old(pool) && orders == old(orders)
              case Ok(m) =>
                && r == Ok(m.acceptedThrough) && pool == m.pool
                && orders == old(orders)[peer := order.(acceptedThrough := Some(m.acceptedThrough))]
    {
      merged := Merge(pool, peer, AcceptedThrough(order), Highest(pool, peer), hashes, batchId);
      var accepted := if order.acceptedThrough.Some? then order.acceptedThrough.value else 0;
      var kind := CheckMerge(pool, peer, accepted, hashes, batchId);
      if kind.Err? {
        return Err(kind.error), merged;
      }
      if kind.value.Replay? {
        orders := orders[peer := order.(acceptedThrough := Some(kind.value.highest))];
        return Ok(kind.value.highest), merged;
      }
      InsertPoolRows(peer, hashes, batchId);
      var through := hashes[|hashes| - 1].hashIndex;
      if accepted > through {
        through := accepted;
      }
      orders := orders[peer := order.(acceptedThrough := Some(through))];
      return Ok(through), merged;
    }

    method CommitBatch(sha: Sha, peer: string, batch: Option<Commitment>, hashes: seq<Entry>) returns (ok: bool)
      requires hashes != [] && Consecutive(hashes)
      modifies this`batches
      ensures ok == (batch.Some? ==> CommitmentValid(sha, peer, batch.value, hashes))
      ensures batches == if ok && batch.Some? then Persisted(old(batches), peer, batch.value) else old(batches)
    {
      if batch == None {
        return true;
      }
      ok := ValidateApayBatchCommitment(sha, peer, batch.value, hashes);
      if ok {
        PersistApayBatch(peer, batch.value);
      }
    }

    /** What an upload writes before it is committed or rolled back. */
    method UploadTx(sha: Sha, req: UploadRequest, hashes: seq<Entry>)
      returns (r: Result<UploadResponse, OrderError>, ghost merged: Result<Merged, OrderError>, ghost valid: bool)
      requires hashes != [] && Consecutive(hashes) && UniqueHashes(pool, req.peer)
      modifies this`orders, this`pool, this`batches
      ensures valid == (req.batch.Some? ==> CommitmentValid(sha, req.peer, req.batch.value, hashes))
      ensures !valid ==> r == Err(InvalidHashBatch)
      ensures valid ==> Uploaded(old(Value()), Value(), req, merged, r)
      ensures valid ==> merged == Merge(old(pool), req.peer, AcceptedThrough(OrderOf(old(Value()), req.peer)),
                                        Highest(old(pool), req.peer), hashes, BatchIdOf(req))
    {
      var order := BootstrapAsyncOrder(req.peer);
      var committed := CommitBatch(sha, req.peer, req.batch, hashes);
      valid := committed;
      if !committed {
        return Err(InvalidHashBatch), Err(InvalidHashBatch), false;
      }
      r, merged := MergeAndAnswer(req, order, hashes);
    }

    /** Merges into the pool and answers with the index expected next. */
    method MergeAndAnswer(req: UploadRequest, order: Order, hashes: seq<Entry>)
      returns (r: Result<UploadResponse, OrderError>, ghost merged: Result<Merged, OrderError>)
      requires hashes != [] && UniqueHashes(pool, req.peer) && req.peer in orders && orders[req.peer] == order
      modifies this`pool, this`orders
      ensures merged == Merge(old(pool), req.peer, AcceptedThrough(order), Highest(old(pool), req.peer), hashes, BatchIdOf(req))
      ensures match merged
              case Err(e) => r == Err(e)
              case Ok(m) =>
                && r == Ok(UploadResponse(m.acceptedThrough, m.acceptedThrough + 1)) && pool == m.pool
                && orders == old(orders)[req.peer := order.(acceptedThrough := Some(m.acceptedThrough))]
    {
      var batchId := if req.batch.Some? then Some(req.batch.value.batchId) else None;
      var through: Result<int, OrderError>;
      through, merged := MergeAsyncHashPool(req.peer, order, hashes, batchId);
      if through.Err? {
        return Err(through.error), merged;
      }
      return Ok(UploadResponse(through.value, through.value + 1)), merged;
    }

    /** A refused upload leaves every table as it was. */
    method ApplyUpload(sha: Sha, req: UploadRequest) returns (r: Result<UploadResponse, OrderError>)
      requires UniqueHashes(pool, req.peer)
      modifies this`orders, this`pool, this`batches
      ensures match Upload(sha, old(Value()), req, Highest(old(pool), req.peer))
              case Err(e) => r == Err(e) && Value() == old(Value())
              case Ok((db, response)) => r == Ok(response) && Value() == db
    {
      if req.peer == "" {
        return Err(InvalidHashBatch);
      }
      if req.version != PROTOCOL_VERSION {
        return Err(UnsupportedVersion);
      }
      if |req.hashes| == 0 || |req.hashes| > BATCH_MAX_SIZE {
        return Err(InvalidHashBatch);
      }
      var parsed := ParseAsyncOrderHashBatch(req.hashes);
      if parsed.Err? {
        return Err(parsed.error);
      }
      ParsedIsConsecutive(req.hashes);
      var ordersBefore, poolBefore, batchesBefore := orders, pool, batches;
      ghost var merged, valid;
      r, merged, valid := UploadTx(sha, req, parsed.value);
      if r.Err? {
        orders, pool, batches := ordersBefore, poolBefore, batchesBefore;
      }
    }

    method ApplyAsyncOrderNew(h: Hashes, req: UploadRequest) returns (r: Result<UploadResponse, OrderError>)
      requires Valid()
      modifies this`orders, this`pool, this`batches
      ensures Valid() && State() == Exec(h, old(State()), OpUpload(req))
      ensures match UploadResult(h, old(Value()), req)
              case Err(e) => r == Err(e) case Ok(x) => r == Ok(x.1)
    {
      assert OrderInv(State(), req.peer);
      PoolHashesUnique(State(), req.peer);
      UploadKeepsInv(h, State(), req);
      r := ApplyUpload(h.sha, req);
    }

    method LowestAvailable(peer: string) returns (index: Option<int>)
      ensures index == Lowest(pool, peer)
    {
      index := None;
      var rest := pool.Keys;
      while rest != {}
        invariant rest <= pool.Keys
        invariant index.Some? ==> IsAvailable(pool, Key(peer, index.value))
        invariant forall i :: IsAvailable(pool, Key(peer, i)) && Key(peer, i) !in rest ==> index.Some? && index.value <= i
        decreases rest
      {
        var k :| k in rest;
        if k.peer == peer && pool[k].status.Available? && (index == None || k.n < index.value) {
          index := Some(k.n);
        }
        rest := rest - {k};
      }
      LowestIsUnique(pool, peer, index);
    }

    method ReserveTx(peer: string, amountMsat: nat) returns (r: Result<Key, OrderError>)
      modifies this`orders, this`pool, this`invoices
      ensures match ReserveResult(old(Value()), peer, amountMsat)
              case Err(e) => r == Err(e)
              case Ok((db, slot)) => r == Ok(slot) && Value() == db
    {
      if peer == "" {
        return Err(EmptyPeer);
      }
      var order := BootstrapAsyncOrder(peer);
      var slot := Key(peer, if order.currentSlot.Some? && order.currentSlot.value > 0 then order.currentSlot.value + 1 else 1);
      var lowest := LowestAvailable(peer);
      if lowest == None {
        return Err(PoolEmpty);
      }
      var entry := Key(peer, lowest.value);
      var paymentHash := pool[entry].paymentHash;
      pool := pool[entry := pool[entry].(status := PoolStatus.Reserved)];
      if slot in invoices {
        return Err(UniqueViolation);
      }
      invoices := invoices[slot := Inv.Invoice(lowest.value, paymentHash, amountMsat, Inv.Status.Reserved, None, None, None, None)];
      return Ok(slot);
    }

    method ReserveLightningAddressInvoiceSlot(h: Hashes, peer: string, amountMsat: nat) returns (r: Result<Key, OrderError>)
      requires Valid()
      modifies this
      ensures Valid() && State() == Exec(h, old(State()), OpReserve(peer, amountMsat))
      ensures match ReserveResult(old(Value()), peer, amountMsat)
              case Err(e) => r == Err(e) case Ok(x) => r == Ok(x.1)
    {
      ReserveKeepsInv(h, State(), peer, amountMsat);
      var ordersBefore, poolBefore, invoicesBefore := orders, pool, invoices;
      r := ReserveTx(peer, amountMsat);
      if r.Err? {
        orders, pool, invoices := ordersBefore, poolBefore, invoicesBefore;
      } else {
        open := open + {r.value};
      }
    }

    /** Called by the handler that holds the reservation. */
    method FinalizeLightningAddressInvoiceSlot(h: Hashes, slot: Key, invoice: string) returns (r: Result<(), OrderError>)
      requires Valid() && slot in open
      modifies this
      ensures Valid() && State() == Exec(h, old(State()), OpFinalize(slot, invoice))
      ensures r.Ok? <==> FinalizeSlot(old(Value()), slot, invoice).Ok?
    {
      FinalizeKeepsInv(h, State(), slot, invoice);
      open := open - {slot};
      if invoice == "" {
        return Err(WrongState);
      }
      if slot !in invoices {
        return Err(OrderError.NotFound);
      }
      var row := invoices[slot];
      if row.status.Failed? {
        return Err(WrongState);
      }
      if row.inboundInvoice.Some? && row.inboundInvoice.value != "" && row.inboundInvoice.value != invoice && row.status.Active? {
        return Err(WrongState);
      }
      invoices := invoices[slot := row.(inboundInvoice := Some(invoice), status := Inv.Active)];
      var entry := Key(slot.peer, row.hashIndex);
      if entry in pool {
        pool := pool[entry := pool[entry].(status := Consumed)];
      }
      if slot.peer in orders {
        orders := orders[slot.peer := orders[slot.peer].(currentSlot := Some(slot.n))];
      }
      return Ok(());
    }

    /** Called by the handler that holds the reservation. */
    method ReleaseLightningAddressInvoiceSlot(h: Hashes, slot: Key) returns (r: Result<(), OrderError>)
      requires Valid() && slot in open
      modifies this
      ensures Valid() && State() == Exec(h, old(State()), OpRelease(slot))
      ensures r.Ok? <==> ReleaseSlot(old(Value()), slot).Ok?
    {
      ReleaseKeepsInv(h, State(), slot);
      open := open - {slot};
      if slot !in invoices {
        return Err(OrderError.NotFound);
      }
      var row := invoices[slot];
      if row.status.Active? {
        return Err(WrongState);
      }
      if row.status.Failed? {
        return Ok(());
      }
      invoices := invoices[slot := row.(status := Inv.Failed)];
      var entry := Key(slot.peer, row.hashIndex);
      if entry in pool {
        pool := pool[entry := pool[entry].(status := PoolStatus.Available)];
      }
      return Ok(());
    }

    /** The address callback: reserve, ask the node for the payer's invoice, then finalize with
        it or, when the node gives none, release. */
    method LightningAddressCallback(h: Hashes, peer: string, amountMsat: nat, nodeInvoice: Option<string>)
      returns (r: Result<Key, OrderError>)
      requires Valid()
      modifies this
      ensures Valid()
      ensures match ReserveResult(old(Value()), peer, amountMsat)
              case Err(e) => r == Err(e) && State() == old(State())
              case Ok((_, slot)) =>
                var reserved := Exec(h, old(State()), OpReserve(peer, amountMsat));
                State() == Exec(h, reserved, if nodeInvoice.Some? then OpFinalize(slot, nodeInvoice.value) else OpRelease(slot))
      ensures r.Ok? ==> nodeInvoice.Some? && r.value.peer == peer
    {
      var reserved := ReserveLightningAddressInvoiceSlot(h, peer, amountMsat);
      if reserved.Err? {
        return reserved;
      }
      if nodeInvoice == None {
        var _ := ReleaseLightningAddressInvoiceSlot(h, reserved.value);
        return Err(InternalError);
      }
      var finalized := FinalizeLightningAddressInvoiceSlot(h, reserved.value, nodeInvoice.value);
      if finalized.Err? {
        return Err(finalized.error);
      }
      return reserved;
    }

    method MarkRows(shaHex: Inv.ShaHex, paymentHash: string, m: Inv.Mark)
      modifies this`invoices
      ensures Value() == MarkByHash(shaHex, old(Value()), paymentHash, m)
    {
      var rest := invoices.Keys;
      while rest != {}
        invariant rest <= invoices.Keys && invoices.Keys == old(invoices).Keys
        invariant forall k :: k in invoices ==>
                    invoices[k] == if k !in rest && old(invoices)[k].paymentHash == paymentHash
                                   then Inv.MarkRow(shaHex, old(invoices)[k], m) else old(invoices)[k]
        decreases rest
      {
        var k :| k in rest;
        if invoices[k].paymentHash == paymentHash {
          var row := MarkOneRow(shaHex, invoices[k], m);
          invoices := invoices[k := row];
        }
        rest := rest - {k};
      }
      assert invoices == MarkByHash(shaHex, old(Value()), paymentHash, m).invoices;
    }

    /** A conditional update by payment hash, and what the caller is told: whether a row moved
        and, where the hash has a single row, exactly what that row answers. */
    method MarkAsyncRotatingInvoice(h: Hashes, paymentHash: string, m: Inv.Mark) returns (r: Inv.MarkResult)
      requires Valid() && !m.MarkInboundCancelled? && !m.MarkOutboundCancelled?
      modifies this`invoices
      ensures Valid() && State() == Exec(h, old(State()), OpMark(paymentHash, m))
      ensures Answers(h, old(invoices), {}, paymentHash, m, r)
    {
      ghost var before := State();
      MarkKeepsInv(h, before, paymentHash, m);
      r := TransitionResult(h, invoices, paymentHash, m);
      MarkRows(h.shaHex, paymentHash, m);
      MarkStep(h, before, State(), paymentHash, m);
    }

    /** Rebuilds a proof; `rows` is the database's answer to the batch's rows by hash index. */
    method BuildApayInvoiceProof(sha: Sha, at: Key, rows: seq<Key>) returns (r: ProofOutcome)
      requires at in pool && pool[at].batchId.Some? ==> IsBatchSelection(pool, pool[at].batchId.value, rows)
      requires forall k :: k in rows ==> k in pool
      ensures r == BuildProof(sha, Value(), at, rows)
    {
      if at !in pool || pool[at].batchId == None || pool[at].batchId.value == "" {
        return NoProof;
      }
      var batchId := pool[at].batchId.value;
      if batchId !in batches {
        return NoProof;
      }
      var batch := batches[batchId];
      var rpk, bid := DecodePubkey33(batch.recipient), DecodeBatchId16(batchId);
      if rpk == None || bid == None {
        return ProofError;
      }
      var entries, target := ReadEntries(pool, rows, at.n);
      if entries == None {
        return ProofError;
      }
      if target == None {
        return ProofError;
      }
      var leaves := ApayLeaves(sha, rpk.value, bid.value, entries.value);
      var proof := MerkleProof(sha, leaves, target.value);
      return Proved(InvoiceProof(batch.recipient, batch.host, batchId, at.n, pool[rows[target.value]].paymentHash,
                                 batch.root, batch.size, proof));
    }
  }

  lemma MarkStep(h: Hashes, s: Server, s': Server, paymentHash: string, m: Inv.Mark)
    requires !m.MarkInboundCancelled? && !m.MarkOutboundCancelled?
    requires s'.open == s.open && s'.db == MarkByHash(h.shaHex, s.db, paymentHash, m)
    ensures s' == Exec(h, s, OpMark(paymentHash, m))
  {}

  lemma LowestIsUnique(pool: map<Key, PoolRow>, peer: string, index: Option<int>)
    requires IsLowestAvailable(pool, peer, index)
    ensures index == Lowest(pool, peer)
  {}
}
