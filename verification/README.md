# Verification model of the UTEXO LSP

A Dafny model of the payment logic in `internal/lspapi`, and proofs about it. Run
`dafny verify dfyconfig.toml`. Four parts:

- **Hosted-address uploads.** `Hex`, `ApayMerkle`, `ApayPool`, `ApayServer` specify hashing,
  the Merkle tree with its duplicated odd node, the hash pool and the slot transactions;
  `ApayTree` and `ApayOrders` say again, without them, what is hashed, accepted and written.
  `ApayStore` has the same as a class whose methods update the tables, each proved to take the
  step of the transition system `ApayServer`. `ApayRuns` and `ApayPoolTheorems`
  hold the theorems over all runs, `ApayProof` and `ApayLifetime` those about inclusion proofs,
  `ApayReuse` the uses of one batch id.
- **Hosted-address payments.** `ApayInvoice` is the status machine, `Outbox` and `OutboxLease`
  the job table and its leases, `OutboxStore` the table as the cron job uses it. `ApayJobs` is a
  transition system in which any number of workers run the three jobs, split at every store and
  node call, between callbacks, replayed webhooks, lease expiry and crashes; `ApayJobRuns`,
  `ApayJobTheorems` and `ApayJobPaid` prove what it keeps. `ApayJobBodies` has the job bodies as
  methods, each shown to be one of those interleavings, and `ApayOutcomes` what each comes to.
  `ApayHeld` follows a payment back to the HTLC behind it. `ApayLink` ties its rows to the store's.
- **The `/lightning_send` relay.** `DeadlinePolicy` is the block arithmetic at the machine's
  widths, `RelayStore` the records and their compare-and-set, `Relay` the transition system,
  `RelayRuns` and `RelayTheorems` its invariant and promises, `RelayChains` and `RelayRefunds`
  what can still happen from a given state, `RelayMishaps` runs that end badly, `RelayJobs` the
  bodies, `RelayOutcomes` what they come to, `RelayGates` what a payment had to pass.
- **Delivery and assets.** `DeliveryBackoff`, `Delivery`, `DeliverySteps`, `DeliveryRuns` cover
  `lightning_receive`; `Assets` and `AssetQuotes` the payout asset, the resolvers and discovery.

Conventions. A table is a map over its UNIQUE key. A transaction is one step; its error leaves
the tables as they were. Time, block height and everything the Lightning node answers are
inputs of a step. So is, in the relay's jobs and in delivery, whether the store takes a call,
because there some errors are dropped; in the hosted-address jobs every error is returned, and a
store call that fails is a worker that dies there. SHA-256 is a function parameter, and a theorem
that needs collision freedom asks for it only on a finite set that holds the buffers it hashes.
Runs start from an empty store, or from any state that satisfies the invariant, and are arbitrary
sequences of events.

Assumptions the theorems state. Payment hashes are distinct across orders and across the two
flows (rows of `ApayJobs` and `Relay` are found by hash; `UploadToProofIff` asks for it outright).
Finalize and release are called by the callback that holds the reservation. A delivery send whose
answer is lost has either reached the node by then or never does. The node refuses a second HODL
invoice for one hash, so a quote never finds its record already there. An invoice always decodes
to the same final delta, when it decodes. `LeaseExclusion` is about runs in which every holder
reports inside its lease.

## What the proofs found

- One release, or one callback that dies between reserve and finalize, stops an order's
  reservations for good: the slot number is not advanced and the next insert hits
  `UNIQUE(order_id, invoice_slot)` (`ReleaseStopsOrder`).
- Using a batch id for a second upload is accepted and breaks every proof of the first, and
  nothing else does (`ReuseEndsProofs`, `UploadToProofIff`). A new commitment sent with hashes
  already stored is accepted too and never has a proof (`CommitmentHasProofsIff`).
- Repeating the last leaf of an odd batch of three or more keeps its root; only the size check tells them apart.
- The comment at `internal/lspapi/lightning_send.go:447-449` says a relay stays pending and is
  retried after a transport error. The code never sends a second time: the retry loses the
  compare-and-set and reports done (`RetryReportsDoneWithoutSending`, `CrashStrandsRelay`).
- Such a retry can still find its gate closed, by a node outage for one. Then the cancel is called
  and the relay failed with its payment started (`StartedRelayIsFailed`; exactly when:
  `RelayCanFailIff`). If the preimage arrives just then, the relay goes on to collect a HODL that
  is gone (`CancelledRelayIsCollecting`; exactly when: `HodlCanBeCancelledIff`).
- The cancel's own error is dropped: a relay can end failed while its HODL stays held and nothing
  is left to cancel it (`FailedHodlStaysHeld`; exactly when: `CancelTakesEffectIff`,
  `RefundedHodlIff`). When the write fails as well, as it does when both run into the job's
  timeout, a held relay is left with a finished job and is forgotten (`HeldRelayIsForgotten`;
  exactly when: `RelayCanFailIff`, `HodlCanBeCancelledIff`, `PaymentCanStartIff`).
- A worker that dies between cancelling the HODL and recording it leaves the relay payable, and
  the next one may pay it (`PaymentStartsAfterCancel`; exactly when: `PaymentCanStartIff`).
- In the hosted-address flow a payment the node reports failed is recorded as paid
  (`FailedPaymentIsRecordedPaid`; exactly when: `SendRecordsPaidIff`).
- A holder that outlives its lease can turn a finished job back into a pending one
  (`LateRetryRevivesDoneJob`; exactly when: `DoneIsFinalIff`).
- Discovery promises what the callback quotes, except that it lists nothing while the node
  cannot describe the payout asset, which the callback still quotes (`DiscoveryEqualsCallbackIff`).
- A final delta around 2^63 or more can wrap into the quote budget; a retry cap above 2^62 can make
  the backoff negative (`HugeDeltaIsAdmitted`, `ClosedFormIff`).
- Receives are unique by invoice text, not by hash, and a first attempt does not ask the node:
  two spellings of one invoice start two payments (`DeliveryIsSafeIff`, `DistinctIffGuarded`). So
  does one spelling when the record of its first payment is lost, whose error is dropped
  (`FirstRecordIsLost`; exactly when: `LostWriteIsSafeIff`).

## Model

| member | source | states |
|---|---|---|
| `Hex.DecodeEncode` | `internal/lspapi/apay_merkle.go:28-39` | Decoding the hexadecimal text of any byte string gives the bytes back |
| `Hex.EncodeDecode` | `internal/lspapi/async_order.go:492-498` | Re-encoding any decodable lower-case text gives the text back, so one payment hash has one spelling |
| `Hex.PaymentHashDecodes` | `internal/lspapi/async_order.go:492-498` | Every accepted payment hash decodes to exactly 32 bytes |
| `Hex.EncodedDigits` | `internal/lspapi/apay_batch_store.go:68-70` | Each byte is written as its high digit, then its low one, in lower case |
| `Hex.DecodesIff` | `internal/lspapi/apay_merkle.go:28-39` | Text decodes exactly when it is of even length and every character is a digit, of either case |
| `Hex.DecodedDigits` | `internal/lspapi/apay_merkle.go:28-39` | Each byte is sixteen times its first digit plus its second |
| `Hex.BigEndianByte` | `internal/lspapi/apay_merkle.go:46-48` | Byte i of an integer written into w bytes is n / 256^(w-1-i) mod 256: the most significant comes first |
| `ApayMerkle.LeafBufferLayout` | `internal/lspapi/apay_merkle.go:41-52` | The bytes a leaf hashes, position by position: a zero, the 18 characters of the tag, the recipient, the batch id, the index from its most significant byte on, the payment hash |
| `ApayMerkle.NodeBufferLayout` | `internal/lspapi/apay_merkle.go:54-60` | The bytes an inner node hashes: a one, the left child, the right child |
| `ApayMerkle.LeafBufferInjective` | `internal/lspapi/apay_merkle.go:41-52` | The bytes hashed for a leaf determine recipient, batch, index and payment hash, for all 64-bit indices |
| `ApayMerkle.NodeBufferInjective` | `internal/lspapi/apay_merkle.go:54-60` | The bytes hashed for an inner node determine both children |
| `ApayMerkle.LeafIsNoNode` | `internal/lspapi/apay_merkle.go:41-60` | No leaf buffer is a node buffer: the prefixes separate them |
| `ApayMerkle.ComputeNextLevel` | `internal/lspapi/apay_merkle.go:62-73` | The pairing loop computes the level above, an odd last node being paired with itself |
| `ApayMerkle.ApayLeaves` | `internal/lspapi/apay_merkle.go:75-81` | The loop hashes each entry with its own index, in order; the bytes are `LeafBufferLayout`'s |
| `ApayMerkle.MerkleRoot` | `internal/lspapi/apay_merkle.go:83-92` | The level loop ends with the root of the tree |
| `ApayMerkle.MerkleProof` | `internal/lspapi/apay_merkle.go:94-115` | The halving loop collects the sibling and side of every level |
| `ApayMerkle.MerkleVerify` | `internal/lspapi/apay_merkle.go:117-134` | Accepts exactly when folding the proof over the leaf gives the root; malformed siblings and sides are refused |
| `ApayMerkle.DepthIsCeilLog2` | `internal/lspapi/apay_merkle.go:94-115` | The number of levels is the least d with 2^d >= n |
| `ApayTree.RootIsTopNode` | `internal/lspapi/apay_merkle.go:62-92` | The root is the top node of a tree defined on its own: a node is the digest of a one byte, its left and its right child, and a right child with no leaf below it is replaced by the left one |
| `ApayTree.VerifiesIff` | `internal/lspapi/apay_merkle.go:117-134` | A proof is accepted exactly when there is a path of digests from the leaf to the root on which each element's 32-byte sibling is hashed on the side it names |
| `ApayMerkle.Completeness` | `internal/lspapi/apay_merkle.go:94-134` | For every non-empty list and index the generated proof verifies, has ceil(log2 n) steps, and its sides spell the index from the lowest bit up |
| `ApayMerkle.ProofClimbsTree` | `internal/lspapi/apay_merkle.go:117-134` | A proof of any length that ends at the root passes only through nodes of the tree, level by level |
| `ApayMerkle.Soundness` | `internal/lspapi/apay_merkle.go:41-134` | Any accepted proof, of any length, for any leaf buffer names one of the committed entries, as long as the hash does not collide on the buffers involved |
| `ApayMerkle.Binding` | `internal/lspapi/apay_merkle.go:62-92` | Equal roots over equally many leaves mean equal leaves, on any set of buffers that holds both trees' and is free of collisions |
| `ApayMerkle.TreeHasBuffers` | `internal/lspapi/apay_merkle.go:62-92` | Every tree is built from a finite set of buffers |
| `ApayMerkle.OddDuplicateKeepsRoot` | `internal/lspapi/apay_merkle.go:62-73` | Repeating the last leaf of an odd list of three or more keeps the root for every hash function, so the length condition is needed |
| `ApayMerkle.BindingIffSameLength` | `internal/lspapi/apay_batch_store.go:55-69` | Under one root two leaf lists are equal exactly when they are equally long, which the batch-size check enforces |
| `ApayMerkle.CommitmentBinds` | `internal/lspapi/apay_batch_store.go:43-71` | Recipient, batch, size and root determine the committed entries |
| `ApayPool.ParsedIsConsecutive` | `internal/lspapi/async_order.go:465-490` | Parsing forces consecutive positive indices and valid hashes |
| `ApayOrders.ParsesIff` | `internal/lspapi/async_order.go:465-498` | A batch is read exactly when every hash is 64 lower-case hexadecimal digits and the indices run on from a positive first one without gap, within 63 bits; then as it stands |
| `ApayOrders.CommitmentHoldsIff` | `internal/lspapi/apay_batch_store.go:43-71` | A commitment is valid exactly when both keys and the batch id are hexadecimal text of 33, 33 and 16 bytes, it names this many hashes, and its root is the tree's over their leaves |
| `ApayOrders.MalformedIsRefused` | `internal/lspapi/async_order.go:402-420` | Another version, and nothing else, is an unsupported version; no peer, no hash, more than 200 or a batch out of order is an invalid batch |
| `ApayOrders.WellFormedIff` | `internal/lspapi/async_order.go:402-433` | What a well-formed upload is, written out |
| `ApayOrders.ConflictIsNamed` | `internal/lspapi/async_order.go:524-546` | A well-formed upload in conflict is refused for its first conflicting entry: for its index if only that is taken, for its hash otherwise; without conflict it is accepted or invalid |
| `ApayOrders.UploadWrites` | `internal/lspapi/async_order.go:402-463` | All else an accepted upload writes and answers: the watermark, raised by the number of hashes appended, the next index, and the commitment unless its batch id is taken |
| `ApayStore.ParseAsyncOrderHashBatch` | `internal/lspapi/async_order.go:465-490` | The parsing loop accepts and returns exactly what the specification does, refusing at the first bad entry |
| `ApayStore.ValidateApayBatchCommitment` | `internal/lspapi/apay_batch_store.go:43-71` | Valid exactly when keys decode, the size matches and the recomputed root is the committed one |
| `ApayStore.IndexHashes` | `internal/lspapi/async_order.go:506-513` | One pass over the stored rows finds the watermark and inverts index to hash |
| `ApayStore.CheckEntry` | `internal/lspapi/async_order.go:528-546` | One entry's error: repeated in the batch, another hash at its index, or its hash at another index, in that order |
| `ApayStore.CheckBatch` | `internal/lspapi/async_order.go:524-546` | The loop reports the first conflict in upload order and whether stored and new indices were seen |
| `ApayStore.CountMissing` | `internal/lspapi/async_order.go:548-553` | Counts the indices not stored yet |
| `ApayStore.CheckMerge` | `internal/lspapi/async_order.go:500-573` | Every refusal of the merge and its choice between replay and append |
| `ApayStore.SQLStore.InsertPoolRows` | `internal/lspapi/async_order.go:575-583` | The insert loop adds exactly the batch's rows, available and stamped |
| `ApayStore.SQLStore.MergeAsyncHashPool` | `internal/lspapi/async_order.go:500-593` | The merge transaction: error and no change, or the merged pool and watermark |
| `ApayStore.SQLStore.PersistApayBatch` | `internal/lspapi/apay_batch_store.go:12-31` | Inserts the commitment unless its batch id is taken, in which case nothing changes |
| `ApayStore.SQLStore.ApplyUpload` | `internal/lspapi/async_order.go:402-463` | The upload handler equals its specification; every refusal rolls all tables back |
| `ApayStore.SQLStore.ApplyAsyncOrderNew` | `internal/lspapi/async_order.go:402-463` | The same as a step of the transition system: keeps the pool and slot invariant |
| `ApayStore.SQLStore.LowestAvailable` | `internal/lspapi/async_order.go:722-743` | Finds the lowest available index of the order, or none |
| `ApayStore.SQLStore.ReserveLightningAddressInvoiceSlot` | `internal/lspapi/async_order.go:286-343` | Reserves the lowest hash for the slot after the current one; a taken slot aborts the transaction |
| `ApayStore.SQLStore.FinalizeLightningAddressInvoiceSlot` | `internal/lspapi/async_order.go:345-375` | The holder's finalize: row active, hash consumed, current slot advanced |
| `ApayStore.SQLStore.ReleaseLightningAddressInvoiceSlot` | `internal/lspapi/async_order.go:377-400` | The holder's release: row failed, hash available again, current slot not advanced |
| `ApayStore.SQLStore.LightningAddressCallback` | `internal/lspapi/lightning_address.go:240-262` | Reserve, then exactly one of finalize and release on its own reservation |
| `ApayStore.TransitionResult` | `internal/lspapi/async_order.go:118-134` | Transitioned exactly when a row moves, not found when none has the hash, and the only row's own answer where there is one |
| `ApayStore.SQLStore.MarkAsyncRotatingInvoice` | `internal/lspapi/async_order.go:853-1148` | A conditional update of the rows with a payment hash, with that answer; which rows it moves is `MarkMovesIff` |
| `ApayStore.ReadEntries` | `internal/lspapi/apay_batch_store.go:118-142` | The row loop decodes every hash and tracks the last row at the wanted index |
| `ApayStore.SQLStore.BuildApayInvoiceProof` | `internal/lspapi/apay_batch_store.go:73-166` | The rebuilt proof, absent or failing in exactly the specified cases |
| `ApayPoolTheorems.PoolSlotInvariant` | `internal/lspapi/async_order.go:286-400` | In every reachable store: indices are 1..accepted_through_index, at most 400 unconsumed, reserved and consumed entries match their rows, at most one row above the current slot, no two rows share a hash |
| `ApayRuns.RunKeepsInv` | `internal/lspapi/async_order.go:286-593` | Every upload, reserve, finalize, release, dead handler and webhook keeps the stronger invariant behind it, in which a row's slot equals its hash index |
| `ApayRuns.LiveIsTail` | `internal/lspapi/async_order.go:713-720` | The unconsumed hashes are exactly those after the current slot |
| `ApayRuns.MergeReplay` | `internal/lspapi/async_order.go:565-570` | Re-sending stored hashes is accepted and changes nothing |
| `ApayRuns.MergeAppend` | `internal/lspapi/async_order.go:571-592` | New hashes at the next index that fit are appended as they are |
| `ApayRuns.MergeOnly` | `internal/lspapi/async_order.go:515-573` | Nothing else is accepted |
| `ApayRuns.LowestIsNext` | `internal/lspapi/async_order.go:301-316` | The lowest available hash is always the one after the current slot |
| `ApayPoolTheorems.UploadAcceptedIff` | `internal/lspapi/async_order.go:402-463` | An upload is accepted exactly when it is well formed and either all stored already or all new at the next index and within 400 |
| `ApayPoolTheorems.AppendOrNothing` | `internal/lspapi/async_order.go:402-463` | Accepted: the pool grows by exactly the hashes at the advertised next index or not at all; refused: the store is unchanged |
| `ApayPoolTheorems.ResendAlwaysAccepted` | `internal/lspapi/async_order.go:565-570` | An accepted upload can be re-sent after any run, is accepted, and changes no pool entry |
| `ApayPoolTheorems.ReserveIff` | `internal/lspapi/async_order.go:286-343` | A reservation succeeds exactly when a hash is left and the next slot has no row; it then takes that slot and the hash of the same number |
| `ApayOrders.ReserveRefusals` | `internal/lspapi/async_order.go:286-343` | In any store: refused for want of a peer, then of a free hash, then because the next slot has a row; accepted otherwise |
| `ApayOrders.ReserveWrites` | `internal/lspapi/async_order.go:286-343` | All it writes: the lowest free hash is reserved, and a reserved row for the requested amount takes the slot after the current one |
| `ApayOrders.FinalizeIff` | `internal/lspapi/async_order.go:345-375` | Finalized exactly when there is an invoice, the row exists, was not released, and is not active with another one; exactly the row, its hash and the current slot change |
| `ApayOrders.ReleaseIff` | `internal/lspapi/async_order.go:377-400` | Released exactly when the row exists and is not active; exactly the row and its hash change, nothing when it was released before |
| `ApayOrders.SettlingTwice` | `internal/lspapi/async_order.go:345-400` | Finalize and release can each be repeated without effect, and each rules the other out |
| `ApayOrders.HandlersHold` | `internal/lspapi/lightning_address.go:240-262` | A handler holds the slot it reserved until it finalizes, releases or dies, once; only a slot it holds is finalized or released |
| `ApayPoolTheorems.OpenSlotIsNext` | `internal/lspapi/lightning_address.go:240-262` | A handler only ever holds its order's next slot, still reserved |
| `ApayPoolTheorems.ReleaseStopsOrder` | `internal/lspapi/async_order.go:377-400` | After one release, or one handler that dies, no run ever reserves for that order again |
| `ApayPoolTheorems.FinalizeAdvancesSlot` | `internal/lspapi/async_order.go:345-375` | A finalized slot moves the order on by one and consumes its hash |
| `ApayProof.SelectedAreLeaves` | `internal/lspapi/apay_batch_store.go:118-142` | Sorting the stored rows by hash index recovers the committed leaves in upload order |
| `ApayProof.BuildProofOutcome` | `internal/lspapi/apay_batch_store.go:73-166` | No proof for a hash not stored, uploaded without a batch or whose batch is not stored; an error exactly when a key, the batch id or a selected hash does not decode or the index is missing; otherwise a proof naming the stored batch and the row's hash |
| `ApayLifetime.UploadToProof` | `internal/lspapi/apay_batch_store.go:43-166` | After a commit under an unused batch id and any later run that never stamps that id again, every rebuilt proof verifies against the stored root |
| `ApayLifetime.ForeignRowSpoilsProofs` | `internal/lspapi/apay_batch_store.go:118-142` | One foreign row under the batch id and no row gets a verifying proof under that id, its own hash included, whatever commitment is asked for |
| `ApayReuse.CommittedUploadStamps` | `internal/lspapi/async_order.go:402-463` | An honest commitment of new hashes that fit is accepted and stamps them, whether or not its batch id was used before |
| `ApayReuse.BatchIdIsReused` | `internal/lspapi/apay_batch_store.go:12-31` | From the empty store, for any keys and batch id, two uploads under that id are both accepted |
| `ApayReuse.ReuseEndsProofs` | `internal/lspapi/apay_batch_store.go:118-142` | From an accepted upload of new hashes under a stored batch's id on, in every later run, nothing is proved under that id: no hash of either upload, under neither commitment |
| `ApayReuse.ReplayStampsNothing` | `internal/lspapi/async_order.go:402-463` | Re-sending stored hashes with a commitment of an unused id is accepted and stores the commitment, but stamps no row |
| `ApayReuse.CommitmentHasProofsIff` | `internal/lspapi/apay_batch_store.go:12-166` | An accepted commitment of an unused id has verifying proofs, now and after any run that stamps no more rows with the id, exactly when its hashes were new |
| `ApayLifetime.StampEndsProofs` | `internal/lspapi/apay_batch_store.go:73-166` | After any later run either nothing was stamped with a stored batch's id or no rebuilt proof whatever verifies under it |
| `ApayLifetime.StoredProofsIff` | `internal/lspapi/apay_batch_store.go:73-166` | From any reachable store in which a batch alone carries its stamp: after any run its proofs verify if and only if no upload stamped further rows with the id |
| `ApayLifetime.UploadToProofIff` | `internal/lspapi/apay_batch_store.go:43-166` | The exact lifetime: the rebuilt proof verifies if and only if no later upload stamped further rows with the batch id |
| `ApayInvoice.MarkMovesForward` | `internal/lspapi/async_order.go:853-1148` | Every mark keeps or raises the rank, leaves terminal rows alone, keeps recorded deadline and preimage, and reports a transition exactly when it raised the rank |
| `ApayInvoice.MarkTransitionsIff` | `internal/lspapi/async_order.go:853-1148` | When each mark applies and what it writes, one by one: a held HTLC moves an active row of exactly its non-zero amount with a non-zero deadline, an invoice must not be empty, a preimage must hash to the payment hash; nothing already recorded is overwritten |
| `ApayInvoice.MarkAnswers` | `internal/lspapi/async_order.go:853-1148` | What a mark that moves nothing answers: invalid exactly for a wrong argument, whatever the status; otherwise not found exactly from the statuses it comes too early for, listed one by one |
| `ApayInvoice.TerminalIff` | `internal/lspapi/async_order.go:53-60` | A row is terminal exactly when no mark, whatever its arguments, moves it |
| `ApayOrders.MarkMovesIff` | `internal/lspapi/async_order.go:853-1148` | In the store: a mark by hash moves exactly the rows with that hash to which it applies, and touches nothing else |
| `ApayHeld.GatesMean` | `internal/lspapi/api.go:279-309` | The three gates in blocks left: more than the inbound delta less 42, than the outbound delta plus the margin, and than 3 more for the recipient's invoice |
| `ApayHeld.HtlcHeldIff` | `internal/lspapi/api.go:48-111` | A reported HTLC changes the desk exactly when the row is active, the amount is the row's own and not zero, there is a deadline, the height is known and enough blocks are left; then the row is claimable with that deadline and its request job queued, and nothing else changes |
| `ApayHeld.SendsAreCovered` | `internal/lspapi/api.go:48-542` | In every run each payment sent has a row whose HTLC was reported held with exactly the row's amount, whose recipient was asked in time, and whose very invoice was accepted in time, all against the deadline on record |
| `ApayHeld.ClaimableMeansHeld` | `internal/lspapi/api.go:48-111` | In every run a row with a deadline on record was reported held with exactly its amount |
| `ApayOutcomes.PaymentSentIff` | `internal/lspapi/api.go:113-196` | A released preimage takes effect exactly when it hashes to a paid row's hash: it is recorded and the claim job queued |
| `ApayOutcomes.RequestHasNothingToDo` | `internal/lspapi/api.go:354-376` | A request job whose row is neither claimable nor asked for changes nothing; it is done exactly when the row is past that |
| `ApayOutcomes.RequestIsTurnedBack` | `internal/lspapi/api.go:377-414` | Without the height, or in time but without the recipient's account, it changes nothing and is retried; too late, the row fails and the job is done |
| `ApayOutcomes.RequestIsAnsweredIff` | `internal/lspapi/api.go:416-479` | Otherwise it is done exactly when the recipient's invoice comes with enough blocks left: the row is pending with it and the send job queued; if not, the row stays asked for and the job is retried |
| `ApayOutcomes.SendJobOutcome` | `internal/lspapi/api.go:481-542` | A send job sends exactly for a pending row with an invoice, once and with that invoice; the row is then paid unless no answer came |
| `ApayOutcomes.ClaimJobOutcome` | `internal/lspapi/api.go:544-594` | A claim job claims exactly for a row whose preimage arrived, with that preimage, and records it exactly when the node confirms |
| `ApayOutcomes.TakeJobIff` | `internal/lspapi/api.go:311-352` | A worker gets a job of this flow exactly when it is pending and due or its five minutes are over, has it for five minutes, and does what it names |
| `ApayOutcomes.ReportLeaves` | `internal/lspapi/api.go:322-333` | Its report finishes that job or makes it due again in fifteen seconds, and changes no other |
| `ApayOutcomes.DeadHolderIsReplaced` | `internal/lspapi/async_order.go:156-231` | When the holder of a job dies, another worker gets it exactly from five minutes after it was handed out |
| `ApayInvoice.ReplayIsHarmless` | `internal/lspapi/async_order.go:118-134` | Replaying a mark after any further marks changes nothing and is no error |
| `ApayJobTheorems.ApayNeverLosesWork` | `internal/lspapi/async_order.go:853-1071` | In every run: claimable or outbound_requested has an unfinished request job and a deadline, outbound_pending an unfinished send job and an invoice, outbound_claimed an unfinished claim job and a matching preimage |
| `ApayJobTheorems.JobsFinishOnlyWhenDone` | `internal/lspapi/api.go:354-594` | A finished job's row got where the job drives it; a claimed row's HODL was claimed with a preimage of its hash |
| `ApayJobTheorems.SendsAgree` | `internal/lspapi/api.go:481-542` | Repeated sends of one hash always carry the one invoice on record |
| `ApayJobTheorems.StatusOnlyRises` | `internal/lspapi/async_order.go:853-1148` | Over any run ranks only rise, terminal rows never change, recorded deadline, invoice and preimage stay |
| `ApayJobTheorems.ReplayChangesNothing` | `internal/lspapi/api.go:48-196` | A webhook that had its effect can be replayed at any later time and changes nothing |
| `ApayJobPaid.PaidMeansSent` | `internal/lspapi/api.go:516-541` | In every run a row that is paid, or further, had its recorded invoice sent |
| `ApayJobPaid.SendJobSendsIff` | `internal/lspapi/api.go:490-516` | A send job that loads its row sends exactly when the row is outbound_pending, whatever was sent before and however little time is left, and then the invoice on record |
| `ApayJobPaid.SendRecordsPaidIff` | `internal/lspapi/api.go:516-541` | An undisturbed worker that sends for a pending row records it paid exactly when the send got an answer, a reported failure included; otherwise it stays pending with its send job unfinished |
| `ApayJobPaid.FailedPaymentIsRecordedPaid` | `internal/lspapi/api.go:516-527` | A run from the empty service in which the only payment is reported failed and its row recorded paid |
| `ApayLink.ReserveIsReserve` | `internal/lspapi/async_order.go:286-343` | With distinct hashes, a reservation by slot is the reservation of the row by hash |
| `ApayLink.FinalizeIsFinalize` | `internal/lspapi/async_order.go:345-375` | So is the holder's finalize |
| `ApayLink.ReleaseIsRelease` | `internal/lspapi/async_order.go:377-400` | So is the holder's release |
| `ApayLink.MarkIsMark` | `internal/lspapi/async_order.go:853-1148` | So is every mark, webhook or job |
| `ApayJobRuns.RunKeeps` | `internal/lspapi/api.go:354-594` | The invariant behind these theorems, under every interleaving of workers, callbacks, webhooks and crashes |
| `ApayJobBodies.FinishIsARun` | `internal/lspapi/api.go:354-594` | A job body run alone is one of the interleavings |
| `ApayJobBodies.ApayService.Transition` | `internal/lspapi/async_order.go:118-154` | A conditional update enqueues its job in the same transaction, only when the status moved |
| `ApayJobBodies.ApayService.RequestOutboundInvoiceJob` | `internal/lspapi/api.go:354-441` | The request job does what the worker's steps do, with every early return |
| `ApayJobBodies.ApayService.AskRecipient` | `internal/lspapi/api.go:413-479` | From the reload to outbound_pending, with the second deadline gate |
| `ApayJobBodies.ApayService.SendOutboundPaymentJob` | `internal/lspapi/api.go:481-542` | The send job, going on after a reported failure and stopping at a transport error |
| `ApayJobBodies.ApayService.ClaimInboundInvoiceJob` | `internal/lspapi/api.go:544-594` | The claim job, with every early return |
| `OutboxStore.OutboxTable.Enqueue` | `internal/lspapi/async_order.go:136-154` | A step of the lease model: a new job is due at once with no attempts, a stored one is not touched |
| `OutboxStore.OutboxTable.Claim` | `internal/lspapi/async_order.go:156-231` | A hand-out of the lease model: an eligible job with the lowest id; none only when none is eligible |
| `OutboxStore.OutboxTable.MarkDone` | `internal/lspapi/async_order.go:233-249` | A done report of the lease model: the job is eligible at no time, its id, attempts and every other job unchanged |
| `OutboxStore.OutboxTable.MarkRetry` | `internal/lspapi/async_order.go:251-268` | A retry report of the lease model: the job is eligible exactly from 15 seconds on, its id, attempts and every other job unchanged |
| `OutboxStore.OutboxTable.RunAsyncOrderOutbox` | `internal/lspapi/api.go:311-335` | One tick is a run of the lease model with at most ten hand-outs, and fewer only when nothing is due |
| `OutboxLease.AttemptsCountHandouts` | `internal/lspapi/async_order.go:156-231` | In every run a job's attempts are exactly the times it was handed out, however late reports are |
| `OutboxLease.LaterJobsComeAfter` | `internal/lspapi/async_order.go:136-231` | In every run a job queued later has the higher id, so that lowest id first is first come, first served |
| `OutboxLease.LeaseExclusion` | `internal/lspapi/api.go:311-335` | While every holder reports inside its lease no two workers hold one job |
| `OutboxLease.UnheldDoneIsFinal` | `internal/lspapi/async_order.go:233-268` | A done job nobody holds stays as it is and is never handed out again, however late other reports are |
| `OutboxLease.DoneIsFinalIff` | `internal/lspapi/async_order.go:233-268` | A done job stays done in every run exactly when no worker holds it |
| `OutboxLease.DoneIsFinal` | `internal/lspapi/async_order.go:233-249` | In particular when every hold is a current lease, as LeaseExclusion keeps it in punctual runs |
| `OutboxLease.UndoneJobComesBack` | `internal/lspapi/async_order.go:156-268` | In every run a job that is not done is eligible again after at most five idle minutes, whatever its holders did |
| `OutboxLease.LateRetryRevivesDoneJob` | `internal/lspapi/async_order.go:251-268` | Without punctuality the late retry report of a worker makes a done job pending, and it is handed out again |
| `OutboxLease.DoneJobStillHeld` | `internal/lspapi/async_order.go:156-249` | A run in which a finished job still has a holder |
| `DeadlinePolicy.LoadConfig` | `internal/lspapi/config.go:171-185` | The clamps: deltas and margin positive, 0 < base <= max, in-range settings kept |
| `DeadlinePolicy.GateMeans` | `internal/lspapi/api.go:279-309` | The gate's unsigned subtraction is the true number of blocks left |
| `DeadlinePolicy.QuoteAdmitsIff` | `internal/lspapi/lightning_send.go:197-209` | A quote is admitted exactly when final delta and margin are at most the inbound delta less 42, as long as they stay below 2^63 |
| `DeadlinePolicy.DefaultQuotes` | `internal/lspapi/lightning_send.go:197-209` | With the default settings that is every ordinary final delta up to 90 blocks |
| `DeadlinePolicy.GateSlackIff` | `internal/lspapi/lightning_send.go:513-515` | The gate never opens with too few blocks, exactly when margin plus final delta fits 64 bits |
| `DeadlinePolicy.QuotePassesGateIff` | `internal/lspapi/lightning_send.go:197-208` | A quote within the budget passes the relay gate at every deadline of at least height + inbound delta - 39, exactly when the blocks it counted did not wrap below zero |
| `DeadlinePolicy.HugeDeltaIsAdmitted` | `internal/lspapi/lightning_send.go:202-203` | A concrete final delta that wraps: admitted by the quote, refused by the gate |
| `DeadlinePolicy.NoUnderflowIff` | `internal/lspapi/config.go:201-224` | After loading and validating, the inbound requirement does not wrap; with a shorter delta it would refuse every deadline |
| `RelayStore.SendStore.AdvanceLightningSend` | `internal/lspapi/lightning_send_store.go:129-192` | Moves the record only from a listed state, keeps fields the update leaves out, enqueues in the same transaction, and reports whether it moved; a store that fails changes nothing |
| `RelayStore.SendStore.InsertLightningSend` | `internal/lspapi/lightning_send_store.go:20-47` | A second record for a hash is refused |
| `RelayTheorems.RelayNeverLosesWork` | `internal/lspapi/lightning_send.go:343-549` | In every run, whatever calls fail: claimable has a recorded deadline and an unfinished pay job, unless the store did not take an undo of it; outbound_claimed has a matching preimage and an unfinished claim job; and the claim job is done only when settled |
| `RelayTheorems.AtMostOnePayment` | `internal/lspapi/lightning_send.go:406-464` | At most one sendpayment per payment hash in every run, whatever workers, redeliveries, crashes and transport errors do |
| `RelayTheorems.TakenPaymentIsAccountedFor` | `internal/lspapi/lightning_send.go:426-454` | A relay that took its payment sent it, is about to, or lost the worker that was; never two of these |
| `RelayTheorems.PaymentsHaveSlack` | `internal/lspapi/lightning_send.go:500-516` | Every payment's gate opened at the deadline on record, with strictly more blocks left than the recorded invoice's final delta plus margin |
| `RelayGates.GateLetsThroughIff` | `internal/lspapi/lightning_send.go:500-516` | A worker at the gate goes on to take the payment exactly when the invoice decodes, the height is known, a non-zero deadline is on record and more blocks are left than final delta and margin; otherwise it undoes the relay |
| `RelayGates.PaymentsPassedTheGate` | `internal/lspapi/lightning_send.go:406-464` | In every run each payment was let through by such a step of a worker of its relay |
| `RelayOutcomes.HtlcHeldIff` | `internal/lspapi/lightning_send.go:343-373` | A reported HTLC takes effect exactly on a quoted relay with a non-zero deadline: both are recorded and the pay job queued |
| `RelayOutcomes.PaymentSentIff` | `internal/lspapi/lightning_send.go:378-400` | A released preimage takes effect exactly when it hashes to the relay's hash and the payment is out: it is recorded and the claim job queued |
| `RelayOutcomes.PayJobHasNothingToDo` | `internal/lspapi/lightning_send.go:406-419` | A pay job that reads no record is retried; one past paying is done; neither does anything |
| `RelayOutcomes.PayJobRefuses` | `internal/lspapi/lightning_send.go:421-424` | A pay job not let through pays nothing, calls the cancel once and fails the record unless the store does; it is done in any case |
| `RelayOutcomes.PayJobPays` | `internal/lspapi/lightning_send.go:426-446` | A pay job let through pays once when it can take a claimable relay, under the gate it saw |
| `RelayOutcomes.PayJobStandsBack` | `internal/lspapi/lightning_send.go:426-443` | and otherwise does nothing, and is done exactly when the payment was taken before |
| `RelayOutcomes.PayJobAfterwards` | `internal/lspapi/lightning_send.go:445-464` | What a payment leaves: started and recorded or retried, unanswered and retried with the relay pending, or reported failed, cancelled and refunded |
| `RelayOutcomes.ClaimJobOutcome` | `internal/lspapi/lightning_send.go:468-496` | A claim job calls the node exactly for a relay whose preimage arrived, with that preimage; the relay is settled exactly when node and store confirm |
| `RelayOutcomes.TakeJobIff` | `internal/lspapi/api.go:311-352` | A worker gets a relay job exactly when it is pending and due or its five minutes are over, for five minutes |
| `RelayOutcomes.ReportLeaves` | `internal/lspapi/api.go:322-333` | Its report finishes that job or makes it due again in fifteen seconds, and changes no other |
| `RelayTheorems.SettledMeansClaimed` | `internal/lspapi/lightning_send.go:468-496` | A settled relay's HODL was claimed with a preimage of its hash |
| `RelayTheorems.ClaimedRecordStands` | `internal/lspapi/lightning_send.go:468-549` | The node confirms a claim only for a relay whose preimage arrived, and such a relay's record is never cancelled or failed |
| `RelayTheorems.RefundedIsNeverCollected` | `internal/lspapi/lightning_send.go:378-400` | A cancelled or failed relay never changes and no claim of its HODL is ever confirmed, even when a late preimage arrives |
| `RelayTheorems.StatusOnlyRises` | `internal/lspapi/models.go:557-570` | Over any run ranks only rise, terminal records never change, invoices and recorded deadlines stay, no payment, claim or cancel is forgotten |
| `RelayTheorems.ReplayChangesNothing` | `internal/lspapi/lightning_send.go:343-400` | A webhook that had its effect can be replayed at any later time and changes nothing |
| `RelayTheorems.CrashStrandsRelay` | `internal/lspapi/lightning_send.go:426-454` | A worker that dies between taking and sending leaves the relay outbound_pending, and no continuation ever pays it |
| `RelayTheorems.RetryReportsDoneWithoutSending` | `internal/lspapi/lightning_send.go:426-443` | A retried pay job that finds outbound_pending reports done without sending |
| `RelayTheorems.RefusalFailsPendingRelay` | `internal/lspapi/lightning_send.go:421-424` | Whatever closes the gate on a retry leads to a cancel, which takes effect or not, and to failing the pending relay either way; when the store does not take that, the job reports done all the same |
| `RelayRefunds.PaymentCanStartIff` | `internal/lspapi/lightning_send.go:406-516` | From any reachable state, a payment not started yet can still be started exactly when a worker is about to send it, or its leg is not taken and more blocks than its invoice demands fit: under some deadline before the HTLC is held, under the recorded one after, and then only while its pay job is unfinished or a worker can still pay or start over |
| `RelayRefunds.RelayCanFailIff` | `internal/lspapi/lightning_send.go:406-549` | From any reachable state, payment started or not, a relay can still end cancelled or failed exactly when it already is, its HTLC is not held yet, or it is claimable or outbound_pending and its pay job is unfinished or has a worker not about to report done |
| `RelayRefunds.HodlCanBeCancelledIff` | `internal/lspapi/lightning_send.go:518-559` | From any reachable state its HODL can still be cancelled exactly when the HTLC is not held yet, its open relay's pay job can still come to the cancel, or, whatever became of the relay, a worker is about to check the gate, send or cancel |
| `RelayRefunds.RefundedHodlIff` | `internal/lspapi/lightning_send.go:534-559` | For a relay already cancelled or failed, exactly when such a worker is left |
| `RelayRefunds.CancelTakesEffectIff` | `internal/lspapi/lightning_send.go:551-559` | The HODL is cancelled exactly when the call takes effect; the undo goes on either way |
| `RelayRefunds.UndoRecordsIff` | `internal/lspapi/lightning_send.go:520-549` | A worker that called the cancel leaves the relay refunded exactly when it finds it refunded already, or no further than pending with a store that takes the record; it reports done in any case |
| `RelayRefunds.RefundedMeansCancelCalled` | `internal/lspapi/lightning_send.go:520-559` | In every run the cancel was called for a cancelled or failed relay, and its HODL was cancelled unless such a call came to nothing |
| `RelayRefunds.TakeIsReachable` | `internal/lspapi/lightning_send.go:343-440` | From any reachable state, any quoted relay once held gets any free worker to the point of taking its payment, under an open gate |
| `RelayMishaps.StartedRelayIsFailed` | `internal/lspapi/lightning_send.go:421-454` | A run from the empty service that ends with the payment started, the HODL cancelled and the relay failed |
| `RelayMishaps.CancelledRelayIsCollecting` | `internal/lspapi/lightning_send.go:378-400` | A run that ends with the HODL cancelled and the relay outbound_claimed: the preimage came between the cancel and its record |
| `RelayMishaps.PaymentStartsAfterCancel` | `internal/lspapi/lightning_send.go:406-464` | A run that starts the payment after the HODL was cancelled: the worker died before recording that |
| `RelayMishaps.FailedHodlStaysHeld` | `internal/lspapi/lightning_send.go:534-559` | A run from the empty service that ends failed with the HODL never cancelled, and no later run cancels it: the cancel's error was dropped |
| `RelayMishaps.HeldRelayIsForgotten` | `internal/lspapi/lightning_send.go:421-424` | A run that ends claimable with its pay job done, after which no run pays, refunds or cancels: the cancel and the write both failed |
| `RelayRuns.RunKeeps` | `internal/lspapi/lightning_send.go:343-549` | The invariant behind these theorems, under every interleaving |
| `RelayJobs.FinishIsARun` | `internal/lspapi/lightning_send.go:406-496` | A job body run alone is one of the interleavings |
| `RelayJobs.RelayService.MarkLightningSendClaimable` | `internal/lspapi/lightning_send.go:343-373` | The claimable webhook's mark is the transition system's step; no deadline and no record are its errors, a replay is none |
| `RelayJobs.RelayService.MarkLightningSendPreimage` | `internal/lspapi/lightning_send.go:378-400` | So is the preimage mark; a wrong preimage, no record and a payment not started are its errors, anything later is none |
| `RelayJobs.RelayService.PayOutboundJob` | `internal/lspapi/lightning_send.go:406-464` | The pay job does what the worker's steps do: load, gate, take, send, record or undo, with every store call failing or not; what that comes to is `PayJobRefuses` to `PayJobAfterwards` |
| `RelayJobs.RelayService.ClaimInboundJob` | `internal/lspapi/lightning_send.go:468-496` | So does the claim job |
| `RelayJobs.RelayService.UndoLightningSend` | `internal/lspapi/lightning_send.go:520-559` | Refund and failure call the cancel and close a record that is still open; neither's failure stops the other or is reported |
| `DeliveryBackoff.Compute` | `internal/lspapi/api.go:1510-1519` | The doubling loop on 64-bit durations |
| `DeliveryBackoff.ClosedFormIff` | `internal/lspapi/api.go:1510-1519` | It computes min(max, base * 2^(attempts-1)) for every number of attempts exactly when the first doubling to reach max still fits 64 bits |
| `DeliveryBackoff.SmallCapsFit` | `internal/lspapi/api.go:1510-1519` | Any max up to 2^62 fits |
| `DeliveryBackoff.BackoffIsMonotone` | `internal/lspapi/api.go:1510-1519` | Where it fits, the delay lies in [base, max] and never shrinks |
| `Delivery.DeliveryCron.InsertLightningReceive` | `internal/lspapi/db.go:406-428` | A second mapping of the same invoice text is refused |
| `Delivery.DeliveryCron.ListLightningPending` | `internal/lspapi/db.go:531-567` | The due mappings by ascending id, cut at the limit and complete below it |
| `Delivery.DeliveryCron.UpdateLightningDelivery` | `internal/lspapi/db.go:595-626` | Fields left out keep their value, except that the next attempt time is erased; a lost write changes nothing |
| `Delivery.DeliveryCron.StartLightningDelivery` | `internal/lspapi/api.go:1397-1428` | The first attempt, in every outcome |
| `Delivery.DeliveryCron.PollLightningDelivery` | `internal/lspapi/api.go:1431-1457` | Reading the outcome: completed, parked, rescheduled or retried |
| `Delivery.DeliveryCron.RetryLightningDelivery` | `internal/lspapi/api.go:1460-1488` | A further attempt, in every outcome |
| `Delivery.DeliveryCron.ScheduleDeliveryRetry` | `internal/lspapi/api.go:1492-1507` | One more attempt counted, the backoff from now, the hash kept unless a new one is known |
| `Delivery.DeliveryCron.MonitorLightningReceive` | `internal/lspapi/api.go:1357-1393` | A tick visits exactly the listed mappings in order; what a visit does is `VisitSendsIff` and the rows after it |
| `DeliveryRuns.TickIsVisits` | `internal/lspapi/api.go:1357-1393` | A tick is a run of single visits, so what holds of all runs holds of ticks |
| `DeliverySteps.VisitSendsIff` | `internal/lspapi/api.go:1357-1488` | When a visit calls sendpayment: never past expiry or without the transfer's status; for a mapping not delivering yet, exactly when its transfer is settled and the invoice decodes and can be delivered; the call it makes and what the node holds afterwards |
| `DeliverySteps.VisitStartsIff` | `internal/lspapi/api.go:1383-1428` | When it starts a first payment |
| `DeliverySteps.VisitBeforeDelivery` | `internal/lspapi/api.go:1366-1393` | A stored visit that does not deliver: past expiry expired, waiting or unknown untouched, a failed transfer failed, an expired one expired |
| `DeliverySteps.VisitReadsOutcome` | `internal/lspapi/api.go:1431-1488` | A stored visit that reads the outcome: succeeded completes the mapping, in flight parks it for the base delay, anything else counts one more attempt |
| `DeliverySteps.VisitFirstAttempt` | `internal/lspapi/api.go:1397-1428` | A stored first attempt: the hash is known once the invoice decodes, one attempt counts, the next look is after the base delay when the payment started and after the backoff otherwise |
| `DeliverySteps.GoVisitsIff` | `internal/lspapi/db.go:531-567` | A mapping is visited exactly while it waits for its transfer or delivers, once its next attempt is due |
| `DeliverySteps.DeliveryConcludes` | `internal/lspapi/api.go:1431-1457` | A payment in flight that succeeds completes its mapping at the first stored visit when due and before expiry; one that fails is sent again there |
| `DeliverySteps.PendingListIsUnique` | `internal/lspapi/db.go:531-567` | The list of a tick is determined by table, clock and limit |
| `DeliverySteps.SendsWaitForSettled` | `internal/lspapi/api.go:1383-1393` | In every run each payment was sent for a mapping whose transfer had been reported settled, at an earlier visit or that one |
| `DeliveryRuns.OnePaymentInFlight` | `internal/lspapi/api.go:1357-1549` | Over every run with distinct hashes that loses no write after a first send, sendpayment is called only while the node holds no pending or succeeded payment of the hash, and completed only after success |
| `DeliveryRuns.SharedHashSendsTwice` | `internal/lspapi/api.go:1397-1428` | Two texts of one invoice make a second send while the first is in flight: a concrete run |
| `DeliveryRuns.DeliveryIsSafeIff` | `internal/lspapi/api.go:1357-1549` | For any set of invoice texts received: no run that stores its writes sends while the node is busy with the hash, exactly when no two of those texts share a payment hash |
| `DeliveryRuns.DistinctIffGuarded` | `internal/lspapi/db.go:406-428` | The hashes stay distinct exactly when every insert finds no stored mapping of its hash |
| `DeliveryRuns.GuardedDeliveryIsSafe` | `internal/lspapi/api.go:1357-1549` | With that look-up and no lost first record every run is safe |
| `DeliveryRuns.LostWriteIsSafeIff` | `internal/lspapi/api.go:1397-1428` | After a visit whose write is lost some run sends while the node is busy, exactly when that visit had started the mapping's first payment |
| `DeliveryRuns.FirstRecordIsLost` | `internal/lspapi/api.go:1397-1428` | A run from the empty service with one text that sends twice |
| `DeliveryRuns.ClosedIsFinal` | `internal/lspapi/db.go:531-567` | Completed, failed and expired mappings never change again |
| `DeliveryRuns.ExpiryAbandonsPayment` | `internal/lspapi/api.go:1366-1369` | The first visit after expiry that is stored closes the mapping for good, even with its payment in flight |
| `DeliveryRuns.RetryIsBounded` | `internal/lspapi/api.go:1431-1507` | A visited undelivered mapping is due again between base and max from now, or at once when the write is lost |
| `Assets.ConvertibleCounterparts` | `internal/lspapi/convertible_asset.go:360-378` | The loop collects each counterpart once, in order of declaration |
| `Assets.CounterpartsAreThePairs` | `internal/lspapi/convertible_asset.go:346-378` | Those are exactly the assets declared convertible with this one |
| `Assets.PayoutAssetFromChannelList` | `internal/lspapi/convertible_asset.go:276-310` | The only eligible asset, the first preferred among several, or nothing |
| `Assets.PayoutIsWellDefined` | `internal/lspapi/convertible_asset.go:276-310` | It depends only on the set of eligible assets, is one of them, and is missing exactly when there is none or several and none preferred |
| `AssetQuotes.AddressBook.PayoutAssetID` | `internal/lspapi/convertible_asset.go:239-274` | The asset on the account, else the one its channels tell, pinned on the way |
| `AssetQuotes.AddressBook.SetLightningAddressPayoutAsset` | `internal/lspapi/db.go:453-469` | Pins only an account not pinned yet |
| `AssetQuotes.PinnedForever` | `internal/lspapi/db.go:450-469` | Once pinned, an account's payout asset never changes over any run |
| `AssetQuotes.FirstObservationWins` | `internal/lspapi/db.go:450-469` | The first asset observed for an open account is the one that stays |
| `AssetQuotes.QuotedLegsAreSound` | `internal/lspapi/convertible_asset.go:109-218` | Whatever is asked (what is quoted for it: `CallbackQuotes`, `ReceiveQuotes`, `SendQuotes`), every quote of all three resolvers keeps the amount and converts exactly when the legs differ, then between eligible, declared assets of one precision |
| `AssetQuotes.CallbackQuotes` | `internal/lspapi/convertible_asset.go:109-151` | What the address callback quotes: inbound the asset asked for, outbound the payout asset, both for the requested amount, converting exactly when they differ; refused exactly when they neither agree nor convert |
| `AssetQuotes.ReceiveQuotes` | `internal/lspapi/convertible_asset.go:166-224` | What the receive flow quotes: inbound the named asset or the only counterpart, outbound the signed invoice's own, both for its amount |
| `AssetQuotes.SendQuotes` | `internal/lspapi/lightning_send.go:248-288` | The same for the relay |
| `AssetQuotes.ConvertsIff` | `internal/lspapi/convertible_asset.go:316-357` | Two assets convert exactly when both are eligible, some declared pair joins them, and their precision is known and the same; and the error of each other case |
| `AssetQuotes.AcceptedPrecision` | `internal/lspapi/convertible_asset.go:383-404` | Every advertised asset carries the payout asset's precision |
| `AssetQuotes.ConversionIsSymmetric` | `internal/lspapi/convertible_asset.go:316-357` | Conversion is allowed one way exactly when it is the other way |
| `AssetQuotes.PairServesBothDirections` | `internal/lspapi/convertible_asset.go:343-357` | The callback quotes x against payout p exactly when the relay and the receive flow quote p against x |
| `AssetQuotes.InboundIsNeverGuessed` | `internal/lspapi/convertible_asset.go:180-195` | An unnamed inbound asset is the only declared counterpart, the outbound asset when there is none, and refused when there are several |
| `AssetQuotes.AcceptedAssets` | `internal/lspapi/convertible_asset.go:383-404` | The discovery loop computes the advertised list |
| `AssetQuotes.DiscoveryEqualsCallbackIff` | `internal/lspapi/convertible_asset.go:109-151` | The list has the payout asset first and no duplicates, and is exactly what the callback quotes precisely when the node can describe the payout asset |
| `AssetQuotes.UndescribedPayout` | `internal/lspapi/convertible_asset.go:383-388` | Otherwise discovery is empty while the callback still quotes the payout asset and nothing else |

## Left out

- Request decoding, trimming and case folding, status codes, bearer checks and JSON: the model starts from normalised values.
- The three-attempt loop around claiming a job: one attempt stands for it. In `Relay` and `ApayJobs` a worker takes any eligible job at any time.
- The cancel after a failed insert of a quote: no record is left, and the caller never gets the invoice. A webhook whose store call fails answers an error and changes nothing.
- Surrogate ids, timestamps, last-error text of invoice rows, the order's active or exhausted flag and the unused-hash count.
- Asset legs on stored invoice rows, and the checks of the recipient's invoice other than its deadline: one answer says whether they passed.
- Address attestations, batch signatures and batch expiry: stored and returned, never interpreted.
- SQL text, Postgres variants and schema migration; the startup repair that moves failed rows back (runs are between two startups).
- ApayStore.SQLStore.BuildApayInvoiceProof: the database's answer to the sorted query is a parameter, with any order among rows of equal index.
- ApayStore.SQLStore.MarkAsyncRotatingInvoice: excludes the two cancellation marks, which no handler calls; `MarkMovesForward` covers them.
- ApayJobTheorems.SendsAgree: does not bound how often a hash is sent, because the code does not.
- ApayJobBodies.FinishIsARun: the body runs with one set of answers at its first gate and one later, as one undisturbed call sees them.
- Delivery attempts are counted without the 64-bit limit of the column.
- Invoice decoding, channel liquidity (`canDeliverNow`), RGB transfers, channel opening and UTXO maintenance: each is one yes-or-no answer or absent.
- `/onchain_send`, node identity, LNURL metadata, `get_info` and the asset metadata cache.
- The Python end-to-end harness and the shell scripts.
