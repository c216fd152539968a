/** What every run of uploads, reservations, callbacks and webhooks keeps: the shape of an
    order's pool and slots, replayable uploads, and slots that can never be reserved again. */
module ApayRuns {
  import opened Wrappers
  import opened Hex
  import opened ApayMerkle
  import opened ApayPool
  import opened Inv = ApayInvoice
  import opened ApayServer

  // ---------------------------------------------------------------- the invariant

  function Count(s: Server, peer: string): int { AcceptedThrough(OrderOf(s.db, peer)) }

  function Slot(s: Server, peer: string): int { Current(OrderOf(s.db, peer)) }

  /** Hash index `i` of an order. Up to the current slot the hash is consumed and its row
      finalized; the next one may be held by a row that is reserved or was released; all
      others are free. A row's slot is always its hash index. */
  ghost predicate EntryInv(s: Server, peer: string, i: int)
    requires Key(peer, i) in s.db.pool
  {
    var k := Key(peer, i);
    var entry := s.db.pool[k];
    && IsPaymentHash(entry.paymentHash) && i <= MAX_INT64
    && (entry.batchId.Some? ==> entry.batchId.value in s.db.batches)
    && (if k in s.db.invoices then
          var row := s.db.invoices[k];
          && i <= Slot(s, peer) + 1
          && row.hashIndex == i && row.paymentHash == entry.paymentHash
          && (if i <= Slot(s, peer) then entry.status == Consumed && row.inboundInvoice.Some? && row.status != Status.Reserved
              else && row.inboundInvoice == None
                   && (|| (entry.status == PoolStatus.Reserved && row.status == Status.Reserved)
                       || (entry.status == PoolStatus.Available && row.status == Failed)))
        else i > Slot(s, peer) && entry.status == PoolStatus.Available)
  }

  ghost predicate OrderInv(s: Server, peer: string) {
    var n, cur := Count(s, peer), Slot(s, peer);
    && (peer in s.db.orders ==> s.db.orders[peer].acceptedThrough.Some? && n >= 1)
    && 0 <= cur <= n <= cur + POOL_MAX_SIZE
    && (forall i :: Key(peer, i) in s.db.pool <==> 1 <= i <= n)
    && (forall i :: 1 <= i <= n ==> EntryInv(s, peer, i))
    && (forall i, j :: 1 <= i < j <= n ==> s.db.pool[Key(peer, i)].paymentHash != s.db.pool[Key(peer, j)].paymentHash)
    && (forall t :: Key(peer, t) in s.db.invoices ==> 1 <= t <= n)
    && (forall t :: Key(peer, t) in s.open ==> Key(peer, t) in s.db.invoices && s.db.invoices[Key(peer, t)].status == Status.Reserved)
  }

  ghost predicate ServerInv(s: Server) {
    forall peer :: OrderInv(s, peer)
  }

  lemma EmptyServerInv()
    ensures ServerInv(EMPTY)
  {}

  // ---------------------------------------------------------------- counting

  lemma {:induction false} IntervalSize(peer: string, lo: int, hi: int)
    requires lo <= hi
    ensures |set i | lo < i <= hi :: Key(peer, i)| == hi - lo
    decreases hi - lo
  {
    if lo < hi {
      IntervalSize(peer, lo, hi - 1);
      assert (set i | lo < i <= hi :: Key(peer, i)) == (set i | lo < i <= hi - 1 :: Key(peer, i)) + {Key(peer, hi)};
    } else {
      assert (set i | lo < i <= hi :: Key(peer, i)) == {};
    }
  }

  /** The unconsumed hashes of an order are exactly those after the current slot. */
  lemma LiveIsTail(s: Server, peer: string)
    requires OrderInv(s, peer)
    ensures Live(s.db.pool, peer) == Count(s, peer) - Slot(s, peer)
  {
    var pool := s.db.pool;
    var live := set k | k in pool && k.peer == peer && pool[k].status != Consumed;
    var tail := set i | Slot(s, peer) < i <= Count(s, peer) :: Key(peer, i);
    forall k ensures k in live <==> k in tail {
      if k in live || k in tail {
        assert k == Key(peer, k.n);
        assert EntryInv(s, peer, k.n);
      }
    }
    assert live == tail;
    IntervalSize(peer, Slot(s, peer), Count(s, peer));
  }

  lemma HighestIsCount(s: Server, peer: string, h: int)
    requires OrderInv(s, peer) && IsHighest(s.db.pool, peer, h)
    ensures h == Count(s, peer)
  {
    if Count(s, peer) >= 1 {
      assert Key(peer, Count(s, peer)) in s.db.pool;
    }
  }

  // ---------------------------------------------------------------- what a merge does

  predicate UniqueHashes(pool: map<Key, PoolRow>, peer: string) {
    forall k, k' :: k in pool && k' in pool && k.peer == k'.peer == peer && k != k' ==> pool[k].paymentHash != pool[k'].paymentHash
  }

  predicate AllPresent(pool: map<Key, PoolRow>, peer: string, hashes: seq<Entry>) {
    forall i :: 0 <= i < |hashes| ==>
      Key(peer, hashes[i].hashIndex) in pool && pool[Key(peer, hashes[i].hashIndex)].paymentHash == hashes[i].paymentHash
  }

  predicate AllNew(pool: map<Key, PoolRow>, peer: string, hashes: seq<Entry>) {
    && (forall i :: 0 <= i < |hashes| ==> Key(peer, hashes[i].hashIndex) !in pool && !RepeatsHash(hashes, i))
    && (forall i, k :: 0 <= i < |hashes| && k in pool && k.peer == peer ==> pool[k].paymentHash != hashes[i].paymentHash)
  }

  lemma {:induction false} StampedAt(peer: string, hashes: seq<Entry>, batchId: Option<string>)
    requires Consecutive(hashes)
    ensures forall k :: k in Stamped(peer, hashes, batchId) <==>
              hashes != [] && k.peer == peer && hashes[0].hashIndex <= k.n < hashes[0].hashIndex + |hashes|
    ensures forall i :: 0 <= i < |hashes| ==>
              Key(peer, hashes[i].hashIndex) in Stamped(peer, hashes, batchId)
              && Stamped(peer, hashes, batchId)[Key(peer, hashes[i].hashIndex)]
                 == PoolRow(hashes[i].paymentHash, PoolStatus.Available, batchId)
  {
    if hashes != [] {
      var front := hashes[..|hashes| - 1];
      assert forall i :: 0 <= i < |front| ==> front[i] == hashes[i];
      StampedAt(peer, front, batchId);
    }
  }

  lemma {:induction false} NoConflictAt(pool: map<Key, PoolRow>, peer: string, hashes: seq<Entry>, from: nat, i: nat)
    requires from <= i < |hashes| && FirstConflict(pool, peer, hashes, from) == None
    ensures EntryConflict(pool, peer, hashes, i) == None
    decreases i - from
  {
    if from < i {
      NoConflictAt(pool, peer, hashes, from + 1, i);
    }
  }

  lemma {:induction false} NoConflict(pool: map<Key, PoolRow>, peer: string, hashes: seq<Entry>, from: nat)
    requires from <= |hashes|
    requires forall i :: from <= i < |hashes| ==> EntryConflict(pool, peer, hashes, i) == None
    ensures FirstConflict(pool, peer, hashes, from) == None
    decreases |hashes| - from
  {
    if from < |hashes| {
      NoConflict(pool, peer, hashes, from + 1);
    }
  }

  lemma {:induction false} MissingNone(pool: map<Key, PoolRow>, peer: string, hashes: seq<Entry>)
    ensures Missing(pool, peer, hashes) == 0 <==> forall i :: 0 <= i < |hashes| ==> Key(peer, hashes[i].hashIndex) in pool
    ensures Missing(pool, peer, hashes) == |hashes| <==> !SomeExisting(pool, peer, hashes)
  {
    if hashes != [] {
      var front, e := hashes[..|hashes| - 1], hashes[|hashes| - 1];
      MissingNone(pool, peer, front);
      assert forall i :: 0 <= i < |front| ==> front[i] == hashes[i];
      if SomeExisting(pool, peer, hashes) && Key(peer, e.hashIndex) !in pool {
        var i :| 0 <= i < |hashes| && Key(peer, hashes[i].hashIndex) in pool;
        assert Key(peer, front[i].hashIndex) in pool;
      }
    }
  }

  ghost predicate Appends(pool: map<Key, PoolRow>, peer: string, highest: int, hashes: seq<Entry>)
    requires hashes != []
  {
    && AllNew(pool, peer, hashes) && hashes[0].hashIndex == highest + 1
    && Live(pool, peer) + |hashes| <= 400
  }

  /** Re-sending hashes the pool already holds is always accepted and changes nothing. */
  lemma MergeReplay(pool: map<Key, PoolRow>, peer: string, accepted: int, highest: int, hashes: seq<Entry>, batchId: Option<string>)
    requires hashes != [] && Consecutive(hashes)
    requires accepted <= highest && Live(pool, peer) <= POOL_MAX_SIZE && UniqueHashes(pool, peer)
    requires AllPresent(pool, peer, hashes)
    ensures Merge(pool, peer, accepted, highest, hashes, batchId) == Ok(Merged(pool, highest))
  {
    MissingNone(pool, peer, hashes);
    forall i | 0 <= i < |hashes| ensures EntryConflict(pool, peer, hashes, i) == None {
      PresentHasNoConflict(pool, peer, hashes, i);
    }
    NoConflict(pool, peer, hashes, 0);
    assert Key(peer, hashes[0].hashIndex) in pool;
  }

  /** New hashes at the next index that fit are accepted and appended as they are. */
  lemma MergeAppend(pool: map<Key, PoolRow>, peer: string, accepted: int, highest: int, hashes: seq<Entry>, batchId: Option<string>)
    requires hashes != [] && Consecutive(hashes) && accepted <= highest
    requires Appends(pool, peer, highest, hashes)
    ensures Merge(pool, peer, accepted, highest, hashes, batchId)
            == Ok(Merged(pool + Stamped(peer, hashes, batchId), highest + |hashes|))
  {
    MissingNone(pool, peer, hashes);
    forall i | 0 <= i < |hashes| ensures EntryConflict(pool, peer, hashes, i) == None {}
    NoConflict(pool, peer, hashes, 0);
  }

  /** Nothing else is accepted. */
  lemma MergeOnly(pool: map<Key, PoolRow>, peer: string, accepted: int, highest: int, hashes: seq<Entry>, batchId: Option<string>)
    requires hashes != [] && Consecutive(hashes)
    requires Merge(pool, peer, accepted, highest, hashes, batchId).Ok?
    ensures AllPresent(pool, peer, hashes) || Appends(pool, peer, highest, hashes)
  {
    MissingNone(pool, peer, hashes);
    forall i | 0 <= i < |hashes| ensures EntryConflict(pool, peer, hashes, i) == None {
      NoConflictAt(pool, peer, hashes, 0, i);
    }
    if SomeExisting(pool, peer, hashes) {
      forall i | 0 <= i < |hashes|
        ensures Key(peer, hashes[i].hashIndex) in pool && pool[Key(peer, hashes[i].hashIndex)].paymentHash == hashes[i].paymentHash
      {
        assert EntryConflict(pool, peer, hashes, i) == None;
      }
    } else {
      ConflictFreeIsNew(pool, peer, hashes);
    }
  }

  lemma PresentHasNoConflict(pool: map<Key, PoolRow>, peer: string, hashes: seq<Entry>, i: nat)
    requires i < |hashes| && Consecutive(hashes) && AllPresent(pool, peer, hashes)
    requires UniqueHashes(pool, peer)
    ensures EntryConflict(pool, peer, hashes, i) == None
  {}

  lemma ConflictFreeIsNew(pool: map<Key, PoolRow>, peer: string, hashes: seq<Entry>)
    requires !SomeExisting(pool, peer, hashes)
    requires forall i :: 0 <= i < |hashes| ==> EntryConflict(pool, peer, hashes, i) == None
    ensures AllNew(pool, peer, hashes)
  {
    forall i, k | 0 <= i < |hashes| && k in pool && k.peer == peer
      ensures pool[k].paymentHash != hashes[i].paymentHash
    {
      assert EntryConflict(pool, peer, hashes, i) == None;
      assert k == Key(peer, k.n);
    }
    forall i | 0 <= i < |hashes| ensures Key(peer, hashes[i].hashIndex) !in pool && !RepeatsHash(hashes, i) {
      assert EntryConflict(pool, peer, hashes, i) == None;
    }
  }

  // ---------------------------------------------------------------- every step keeps the invariant

  ghost predicate SameOrder(s: Server, s': Server, peer: string) {
    && (peer in s.db.orders <==> peer in s'.db.orders)
    && (peer in s.db.orders ==> s'.db.orders[peer] == s.db.orders[peer])
    && (forall i :: Key(peer, i) in s.db.pool <==> Key(peer, i) in s'.db.pool)
    && (forall i :: Key(peer, i) in s.db.pool ==> s'.db.pool[Key(peer, i)] == s.db.pool[Key(peer, i)])
    && (forall i :: Key(peer, i) in s.db.invoices <==> Key(peer, i) in s'.db.invoices)
    && (forall i :: Key(peer, i) in s.db.invoices ==> s'.db.invoices[Key(peer, i)] == s.db.invoices[Key(peer, i)])
    && (forall i :: Key(peer, i) in s'.open ==> Key(peer, i) in s.open)
    && s.db.batches.Keys <= s'.db.batches.Keys
  }

  lemma UntouchedOrder(s: Server, s': Server, peer: string)
    requires OrderInv(s, peer) && SameOrder(s, s', peer)
    ensures OrderInv(s', peer)
  {
    forall i | 1 <= i <= Count(s', peer) ensures EntryInv(s', peer, i) {
      assert EntryInv(s, peer, i);
    }
  }

  lemma PoolHashesUnique(s: Server, peer: string)
    requires OrderInv(s, peer)
    ensures UniqueHashes(s.db.pool, peer)
  {
    var pool := s.db.pool;
    forall k, k' | k in pool && k' in pool && k.peer == k'.peer == peer && k != k'
      ensures pool[k].paymentHash != pool[k'].paymentHash
    {
      assert k == Key(peer, k.n) && k' == Key(peer, k'.n);
    }
  }

  /** How an accepted upload changes the store: its order's watermark and, unless it is a
      replay, exactly its hashes at the next indices. */
  ghost predicate UploadEffect(s: Server, db': Db, req: UploadRequest, hashes: seq<Entry>) {
    var peer := req.peer;
    var n := Count(s, peer);
    && hashes != [] && Consecutive(hashes)
    && db'.invoices == s.db.invoices
    && db'.batches == (if req.batch.Some? then Persisted(s.db.batches, peer, req.batch.value) else s.db.batches)
    && (|| (AllPresent(s.db.pool, peer, hashes)
            && db'.pool == s.db.pool && db'.orders == s.db.orders[peer := OrderOf(s.db, peer).(acceptedThrough := Some(n))])
        || (Appends(s.db.pool, peer, n, hashes)
            && db'.pool == s.db.pool + Stamped(peer, hashes, BatchIdOf(req))
            && db'.orders == s.db.orders[peer := OrderOf(s.db, peer).(acceptedThrough := Some(n + |hashes|))]))
  }

  /** An accepted merge either replays or appends. */
  lemma MergeDoes(s: Server, peer: string, hashes: seq<Entry>, batchId: Option<string>)
    requires OrderInv(s, peer) && hashes != [] && Consecutive(hashes)
    requires Merge(s.db.pool, peer, Count(s, peer), Highest(s.db.pool, peer), hashes, batchId).Ok?
    ensures var m := Merge(s.db.pool, peer, Count(s, peer), Highest(s.db.pool, peer), hashes, batchId).value;
            || (AllPresent(s.db.pool, peer, hashes) && m == Merged(s.db.pool, Count(s, peer)))
            || (Appends(s.db.pool, peer, Count(s, peer), hashes)
                && m == Merged(s.db.pool + Stamped(peer, hashes, batchId), Count(s, peer) + |hashes|))
  {
    var n := Count(s, peer);
    HighestIsCount(s, peer, Highest(s.db.pool, peer));
    LiveIsTail(s, peer);
    PoolHashesUnique(s, peer);
    MergeOnly(s.db.pool, peer, n, n, hashes, batchId);
    if AllPresent(s.db.pool, peer, hashes) {
      MergeReplay(s.db.pool, peer, n, n, hashes, batchId);
    } else {
      MergeAppend(s.db.pool, peer, n, n, hashes, batchId);
    }
  }

  lemma UploadIsMerge(h: Hashes, s: Server, req: UploadRequest)
    requires UploadResult(h, s.db, req).Ok?
    ensures ParseBatch(req.hashes).Some? && ParseBatch(req.hashes).value != [] && Consecutive(ParseBatch(req.hashes).value)
    ensures var (db', response) := UploadResult(h, s.db, req).value;
            var merged := Merge(s.db.pool, req.peer, Count(s, req.peer), Highest(s.db.pool, req.peer), ParseBatch(req.hashes).value, BatchIdOf(req));
            && merged.Ok? && db'.pool == merged.value.pool && db'.invoices == s.db.invoices
            && db'.orders == s.db.orders[req.peer := OrderOf(s.db, req.peer).(acceptedThrough := Some(merged.value.acceptedThrough))]
            && db'.batches == (if req.batch.Some? then Persisted(s.db.batches, req.peer, req.batch.value) else s.db.batches)
            && response.nextIndexExpected == merged.value.acceptedThrough + 1
  {
    ParsedIsConsecutive(req.hashes);
  }

  lemma UploadDoes(h: Hashes, s: Server, req: UploadRequest)
    requires OrderInv(s, req.peer) && UploadResult(h, s.db, req).Ok?
    ensures ParseBatch(req.hashes).Some?
    ensures UploadEffect(s, UploadResult(h, s.db, req).value.0, req, ParseBatch(req.hashes).value)
    ensures UploadResult(h, s.db, req).value.1.nextIndexExpected == Count(Server(UploadResult(h, s.db, req).value.0, s.open), req.peer) + 1
  {
    UploadIsMerge(h, s, req);
    MergeDoes(s, req.peer, ParseBatch(req.hashes).value, BatchIdOf(req));
  }

  /** After an append, index `i` holds what it held before or the batch's own hash. */
  lemma AppendedEntry(s: Server, s': Server, req: UploadRequest, hashes: seq<Entry>, i: int)
    requires OrderInv(s, req.peer) && UploadEffect(s, s'.db, req, hashes)
    requires !AllPresent(s.db.pool, req.peer, hashes)
    ensures Key(req.peer, i) in s'.db.pool <==> 1 <= i <= Count(s, req.peer) + |hashes|
    ensures 1 <= i <= Count(s, req.peer) ==> s'.db.pool[Key(req.peer, i)] == s.db.pool[Key(req.peer, i)]
    ensures Count(s, req.peer) < i <= Count(s, req.peer) + |hashes| ==>
              s'.db.pool[Key(req.peer, i)] == PoolRow(hashes[i - Count(s, req.peer) - 1].paymentHash, PoolStatus.Available, BatchIdOf(req))
  {
    StampedAt(req.peer, hashes, BatchIdOf(req));
    if Count(s, req.peer) < i <= Count(s, req.peer) + |hashes| {
      assert hashes[i - Count(s, req.peer) - 1].hashIndex == i;
    }
  }

  lemma AppendedHashesDiffer(s: Server, s': Server, req: UploadRequest, hashes: seq<Entry>, i: int, j: int)
    requires OrderInv(s, req.peer) && UploadEffect(s, s'.db, req, hashes)
    requires !AllPresent(s.db.pool, req.peer, hashes)
    requires 1 <= i < j <= Count(s, req.peer) + |hashes|
    ensures Key(req.peer, i) in s'.db.pool && Key(req.peer, j) in s'.db.pool
    ensures s'.db.pool[Key(req.peer, i)].paymentHash != s'.db.pool[Key(req.peer, j)].paymentHash
  {
    AppendedEntry(s, s', req, hashes, i);
    AppendedEntry(s, s', req, hashes, j);
    if j > Count(s, req.peer) {
      assert !RepeatsHash(hashes, j - Count(s, req.peer) - 1);
    }
  }

  lemma AppendKeepsOrder(s: Server, s': Server, req: UploadRequest, hashes: seq<Entry>)
    requires OrderInv(s, req.peer) && UploadEffect(s, s'.db, req, hashes) && s'.open == s.open
    requires !AllPresent(s.db.pool, req.peer, hashes)
    ensures OrderInv(s', req.peer)
  {
    var peer := req.peer;
    LiveIsTail(s, peer);
    assert Count(s', peer) == Count(s, peer) + |hashes| && Slot(s', peer) == Slot(s, peer);
    forall i ensures Key(peer, i) in s'.db.pool <==> 1 <= i <= Count(s', peer) {
      AppendedEntry(s, s', req, hashes, i);
    }
    forall i | 1 <= i <= Count(s', peer) ensures EntryInv(s', peer, i) {
      AppendedEntry(s, s', req, hashes, i);
      assert i <= Count(s, peer) ==> EntryInv(s, peer, i);
    }
    forall i, j | 1 <= i < j <= Count(s', peer)
      ensures s'.db.pool[Key(peer, i)].paymentHash != s'.db.pool[Key(peer, j)].paymentHash
    {
      AppendedHashesDiffer(s, s', req, hashes, i, j);
    }
  }

  lemma UploadKeepsInv(h: Hashes, s: Server, req: UploadRequest)
    requires ServerInv(s)
    ensures ServerInv(Exec(h, s, OpUpload(req)))
  {
    var s' := Exec(h, s, OpUpload(req));
    if UploadResult(h, s.db, req).Ok? {
      var hashes := ParseBatch(req.hashes).value;
      assert OrderInv(s, req.peer);
      UploadDoes(h, s, req);
      StampedAt(req.peer, hashes, BatchIdOf(req));
      forall peer ensures OrderInv(s', peer) {
        assert OrderInv(s, peer);
        if peer != req.peer {
          UntouchedOrder(s, s', peer);
        } else if AllPresent(s.db.pool, peer, hashes) {
          ReplayKeepsOrder(s, s', req, hashes);
        } else {
          AppendKeepsOrder(s, s', req, hashes);
        }
      }
    }
  }

  lemma ReplayKeepsOrder(s: Server, s': Server, req: UploadRequest, hashes: seq<Entry>)
    requires OrderInv(s, req.peer) && UploadEffect(s, s'.db, req, hashes) && s'.open == s.open
    requires AllPresent(s.db.pool, req.peer, hashes)
    ensures OrderInv(s', req.peer) && s'.db.pool == s.db.pool && Count(s', req.peer) == Count(s, req.peer)
  {
    assert Key(req.peer, hashes[0].hashIndex) in s.db.pool;
    forall i | 1 <= i <= Count(s', req.peer) ensures EntryInv(s', req.peer, i) {
      assert EntryInv(s, req.peer, i);
    }
  }

  /** Nothing but some rows' statuses and recorded fields differs, and no reserved, failed or
      unfinalized row does. */
  ghost predicate OnlyMarked(s: Server, s': Server) {
    && s'.open == s.open && s'.db.orders == s.db.orders && s'.db.pool == s.db.pool && s'.db.batches == s.db.batches
    && s'.db.invoices.Keys == s.db.invoices.Keys
    && forall k :: k in s.db.invoices ==>
         var (row, row') := (s.db.invoices[k], s'.db.invoices[k]);
         && row'.hashIndex == row.hashIndex && row'.paymentHash == row.paymentHash && row'.inboundInvoice == row.inboundInvoice
         && (row.status == Status.Reserved || row.status == Failed ==> row' == row)
         && (row'.status == Status.Reserved ==> row' == row)
  }

  lemma MarkOnlyMarks(h: Hashes, s: Server, hash: string, m: Mark)
    ensures OnlyMarked(s, Exec(h, s, OpMark(hash, m)))
  {}

  lemma MarkedOrder(s: Server, s': Server, peer: string)
    requires OrderInv(s, peer) && OnlyMarked(s, s')
    ensures OrderInv(s', peer)
  {
    forall i | 1 <= i <= Count(s', peer) ensures EntryInv(s', peer, i) {
      assert EntryInv(s, peer, i);
    }
  }

  lemma MarkKeepsInv(h: Hashes, s: Server, hash: string, m: Mark)
    requires ServerInv(s)
    ensures ServerInv(Exec(h, s, OpMark(hash, m)))
  {
    MarkOnlyMarks(h, s, hash, m);
    forall peer ensures OrderInv(Exec(h, s, OpMark(hash, m)), peer) {
      assert OrderInv(s, peer);
      MarkedOrder(s, Exec(h, s, OpMark(hash, m)), peer);
    }
  }

  /** The lowest free hash is always the one after the current slot. */
  lemma LowestIsNext(s: Server, peer: string)
    requires OrderInv(s, peer) && Key(peer, Slot(s, peer) + 1) !in s.db.invoices
    ensures Lowest(s.db.pool, peer)
            == if Slot(s, peer) < Count(s, peer) then Some(Slot(s, peer) + 1) else None
  {
    var next := Slot(s, peer) + 1;
    assert next <= Count(s, peer) ==> EntryInv(s, peer, next);
    forall i | IsAvailable(s.db.pool, Key(peer, i)) ensures next <= i {
      assert EntryInv(s, peer, i);
    }
  }

  lemma ReserveKeepsInv(h: Hashes, s: Server, peer: string, amount: nat)
    requires ServerInv(s)
    ensures ServerInv(Exec(h, s, OpReserve(peer, amount)))
  {
    var s' := Exec(h, s, OpReserve(peer, amount));
    assert OrderInv(s, peer);
    if ReserveResult(s.db, peer, amount).Ok? {
      LowestIsNext(s, peer);
      forall p ensures OrderInv(s', p) {
        assert OrderInv(s, p);
        if p != peer {
          UntouchedOrder(s, s', p);
        } else {
          forall i | 1 <= i <= Count(s', peer) ensures EntryInv(s', peer, i) {
            assert EntryInv(s, peer, i);
          }
        }
      }
    }
  }

  lemma FinalizeKeepsInv(h: Hashes, s: Server, slot: Key, invoice: string)
    requires ServerInv(s)
    ensures ServerInv(Exec(h, s, OpFinalize(slot, invoice)))
  {
    var s' := Exec(h, s, OpFinalize(slot, invoice));
    assert OrderInv(s, slot.peer);
    assert slot == Key(slot.peer, slot.n);
    if slot in s.open {
      assert EntryInv(s, slot.peer, slot.n);
      assert slot.n == Slot(s, slot.peer) + 1;
    }
    forall p ensures OrderInv(s', p) {
      assert OrderInv(s, p);
      if p != slot.peer {
        UntouchedOrder(s, s', p);
      } else {
        forall i | 1 <= i <= Count(s', p) ensures EntryInv(s', p, i) {
          assert EntryInv(s, p, i);
        }
      }
    }
  }

  lemma ReleaseKeepsInv(h: Hashes, s: Server, slot: Key)
    requires ServerInv(s)
    ensures ServerInv(Exec(h, s, OpRelease(slot)))
  {
    var s' := Exec(h, s, OpRelease(slot));
    assert OrderInv(s, slot.peer);
    assert slot == Key(slot.peer, slot.n);
    if slot in s.open {
      assert EntryInv(s, slot.peer, slot.n);
    }
    forall p ensures OrderInv(s', p) {
      assert OrderInv(s, p);
      if p != slot.peer {
        UntouchedOrder(s, s', p);
      } else {
        forall i | 1 <= i <= Count(s', p) ensures EntryInv(s', p, i) {
          assert EntryInv(s, p, i);
        }
      }
    }
  }

  lemma StepKeepsInv(h: Hashes, s: Server, op: Op)
    requires ServerInv(s)
    ensures ServerInv(Exec(h, s, op))
  {
    match op
    case OpUpload(req) => UploadKeepsInv(h, s, req);
    case OpReserve(peer, amount) => ReserveKeepsInv(h, s, peer, amount);
    case OpFinalize(slot, invoice) => FinalizeKeepsInv(h, s, slot, invoice);
    case OpRelease(slot) => ReleaseKeepsInv(h, s, slot);
    case OpAbandon(slot) =>
      forall p ensures OrderInv(Exec(h, s, op), p) {
        assert OrderInv(s, p);
        UntouchedOrder(s, Exec(h, s, op), p);
      }
    case OpMark(hash, m) => MarkKeepsInv(h, s, hash, m);
  }

  lemma {:induction false} RunKeepsInv(h: Hashes, s: Server, ops: seq<Op>)
    requires ServerInv(s)
    ensures ServerInv(Run(h, s, ops))
    decreases |ops|
  {
    if ops != [] {
      StepKeepsInv(h, s, ops[0]);
      RunKeepsInv(h, Exec(h, s, ops[0]), ops[1..]);
    }
  }
}
