/** The two views of an invoice row: the store finds it by order and slot, the job machine by
    payment hash. While hashes are distinct across orders they are the same rows, and every
    step of the store is a step of the job machine. */
module ApayLink {
  import opened Wrappers
  import opened ApayPool
  import opened ApayServer
  import opened ApayRuns
  import Jobs = ApayJobs
  import Outbox
  import Inv = ApayInvoice

  /** The same rows, by slot and by hash. */
  ghost predicate SameRows(invoices: map<Key, Inv.Invoice>, rows: map<string, Inv.Invoice>) {
    && (forall k :: k in invoices ==> invoices[k].paymentHash in rows && rows[invoices[k].paymentHash] == invoices[k])
    && (forall h :: h in rows ==> exists k :: k in invoices && invoices[k].paymentHash == h)
  }

  ghost predicate DistinctHashes(invoices: map<Key, Inv.Invoice>) {
    forall j, k :: j in invoices && k in invoices && j != k ==> invoices[j].paymentHash != invoices[k].paymentHash
  }

  /** Replacing a row by one with the same hash. */
  lemma ReplacedRow(invoices: map<Key, Inv.Invoice>, rows: map<string, Inv.Invoice>, k: Key, row: Inv.Invoice)
    requires SameRows(invoices, rows) && DistinctHashes(invoices) && k in invoices && row.paymentHash == invoices[k].paymentHash
    ensures SameRows(invoices[k := row], rows[row.paymentHash := row])
  {
    var invoices', rows' := invoices[k := row], rows[row.paymentHash := row];
    forall h | h in rows' ensures exists j :: j in invoices' && invoices'[j].paymentHash == h {
      if h == row.paymentHash {
        assert invoices'[k].paymentHash == h;
      } else {
        var j :| j in invoices && invoices[j].paymentHash == h;
        assert invoices'[j].paymentHash == h;
      }
    }
  }

  /** Adding a row with a new hash. */
  lemma AddedRow(invoices: map<Key, Inv.Invoice>, rows: map<string, Inv.Invoice>, k: Key, row: Inv.Invoice)
    requires SameRows(invoices, rows) && DistinctHashes(invoices[k := row]) && k !in invoices
    ensures row.paymentHash !in rows && SameRows(invoices[k := row], rows[row.paymentHash := row])
  {
    var invoices', rows' := invoices[k := row], rows[row.paymentHash := row];
    forall j | j in invoices ensures invoices[j].paymentHash != row.paymentHash {
      assert invoices'[j] == invoices[j] && invoices'[k] == row && j != k;
    }
    forall h | h in rows' ensures exists j :: j in invoices' && invoices'[j].paymentHash == h {
      if h == row.paymentHash {
        assert invoices'[k].paymentHash == h;
      } else {
        var j :| j in invoices && invoices[j].paymentHash == h;
        assert invoices'[j].paymentHash == h;
      }
    }
  }

  lemma ReserveIsReserve(env: Jobs.Env, s: Jobs.System, db: Db, peer: string, amount: nat)
    requires ReserveResult(db, peer, amount).Ok? && SameRows(db.invoices, s.desk.rows)
    requires DistinctHashes(ReserveResult(db, peer, amount).value.0.invoices)
    ensures var (db', slot) := ReserveResult(db, peer, amount).value;
            && slot in db'.invoices
            && var row := db'.invoices[slot];
            SameRows(db'.invoices, Jobs.Exec(env, s, Jobs.Reserve(row.paymentHash, row.hashIndex, amount)).desk.rows)
  {
    var (db', slot) := ReserveResult(db, peer, amount).value;
    AddedRow(db.invoices, s.desk.rows, slot, db'.invoices[slot]);
  }

  lemma FinalizeIsFinalize(env: Jobs.Env, s: Jobs.System, server: Server, slot: Key, invoice: string)
    requires ServerInv(server) && slot in server.open && invoice != ""
    requires SameRows(server.db.invoices, s.desk.rows) && DistinctHashes(server.db.invoices)
    ensures slot in server.db.invoices && FinalizeSlot(server.db, slot, invoice).Ok?
    ensures SameRows(FinalizeSlot(server.db, slot, invoice).value.invoices,
                     Jobs.Exec(env, s, Jobs.Finalize(server.db.invoices[slot].paymentHash, invoice)).desk.rows)
  {
    HeldRow(server, slot);
    var row := server.db.invoices[slot];
    ReplacedRow(server.db.invoices, s.desk.rows, slot, row.(inboundInvoice := Some(invoice), status := Inv.Active));
  }

  lemma ReleaseIsRelease(env: Jobs.Env, s: Jobs.System, server: Server, slot: Key)
    requires ServerInv(server) && slot in server.open
    requires SameRows(server.db.invoices, s.desk.rows) && DistinctHashes(server.db.invoices)
    ensures slot in server.db.invoices && ReleaseSlot(server.db, slot).Ok?
    ensures SameRows(ReleaseSlot(server.db, slot).value.invoices,
                     Jobs.Exec(env, s, Jobs.Release(server.db.invoices[slot].paymentHash)).desk.rows)
  {
    HeldRow(server, slot);
    var row := server.db.invoices[slot];
    ReplacedRow(server.db.invoices, s.desk.rows, slot, row.(status := Inv.Failed));
  }

  /** A reservation a handler holds has no invoice yet. */
  lemma HeldRow(server: Server, slot: Key)
    requires ServerInv(server) && slot in server.open
    ensures slot in server.db.invoices && server.db.invoices[slot].status == Inv.Reserved
    ensures server.db.invoices[slot].inboundInvoice == None
  {
    assert OrderInv(server, slot.peer) && slot == Key(slot.peer, slot.n);
    assert EntryInv(server, slot.peer, slot.n);
  }

  lemma OneRowMarked(shaHex: Inv.ShaHex, db: Db, h: string, m: Inv.Mark, k: Key)
    requires DistinctHashes(db.invoices) && k in db.invoices && db.invoices[k].paymentHash == h
    ensures MarkByHash(shaHex, db, h, m).invoices == db.invoices[k := Inv.MarkRow(shaHex, db.invoices[k], m)]
  {}

  lemma MarkTxRow(env: Jobs.Env, d: Jobs.Desk, h: string, m: Inv.Mark, job: Option<Outbox.Action>, now: int)
    requires h in d.rows
    ensures Jobs.MarkTx(env, d, h, m, job, now).rows == d.rows[h := Inv.MarkRow(env.sha, d.rows[h], m)]
  {
    assert d.rows[h := d.rows[h]] == d.rows;
  }

  /** A webhook or job step marks the same row on both sides. */
  lemma MarkIsMark(env: Jobs.Env, d: Jobs.Desk, db: Db, h: string, m: Inv.Mark, job: Option<Outbox.Action>, now: int)
    requires SameRows(db.invoices, d.rows) && DistinctHashes(db.invoices)
    ensures SameRows(MarkByHash(env.sha, db, h, m).invoices, Jobs.MarkTx(env, d, h, m, job, now).rows)
  {
    if h in d.rows {
      var k :| k in db.invoices && db.invoices[k].paymentHash == h;
      OneRowMarked(env.sha, db, h, m, k);
      MarkTxRow(env, d, h, m, job, now);
      MarkKeepsHash(env.sha, db.invoices[k], m);
      ReplacedRow(db.invoices, d.rows, k, Inv.MarkRow(env.sha, db.invoices[k], m));
    } else {
      assert MarkByHash(env.sha, db, h, m).invoices == db.invoices;
    }
  }

  lemma MarkKeepsHash(shaHex: Inv.ShaHex, row: Inv.Invoice, m: Inv.Mark)
    ensures Inv.MarkRow(shaHex, row, m).paymentHash == row.paymentHash
  {}
}
