/** The rotating invoice of the hosted-address flow: its eleven statuses, their ranks, and
    the conditional updates that move a row between them. */
module ApayInvoice {
  import opened Wrappers
  import opened DeadlinePolicy

  datatype Status =
    | Reserved | Active | Claimable
    | OutboundRequested | OutboundPending | OutboundPaid | OutboundClaimed
    | InboundClaimed | InboundCancelled | OutboundCancelled | Failed
  {
    function Rank(): int {
      match this
      case Reserved => 10
      case Active => 20
      case Claimable => 30
      case OutboundRequested => 40
      case OutboundPending => 50
      case OutboundPaid => 60
      case OutboundClaimed => 70
      case InboundClaimed => 80
      case InboundCancelled => 90
      case OutboundCancelled => 90
      case Failed => 100
    }

    predicate AtOrBeyond(expected: Status) {
      Rank() >= expected.Rank()
    }

    predicate IsTerminal() {
      InboundClaimed? || InboundCancelled? || OutboundCancelled? || Failed?
    }
  }

  /** One row of the rotating-invoice table; asset legs and timestamps are not modelled. */
  datatype Invoice = Invoice(
    hashIndex: int,
    paymentHash: string,
    amountMsat: nat,
    status: Status,
    inboundInvoice: Option<string>,
    claimDeadline: Option<Uint32>,
    outboundInvoice: Option<string>,
    preimage: Option<string>)

  /** SHA-256 on hexadecimal text, as the preimage check uses it. */
  type ShaHex = string -> string

  datatype Mark =
    | MarkClaimable(amountMsat: nat, deadline: Option<Uint32>)
    | MarkOutboundRequested
    | MarkOutboundPending(invoice: string)
    | MarkOutboundPaid
    | MarkOutboundClaimed(preimage: string)
    | MarkInboundClaimed
    | MarkInboundCancelled
    | MarkOutboundCancelled
    | MarkFailed
  {
    /** The statuses the conditional update accepts. */
    function From(): set<Status> {
      match this
      case MarkClaimable(_, _) => {Active}
      case MarkOutboundRequested => {Claimable}
      case MarkOutboundPending(_) => {OutboundRequested}
      case MarkOutboundPaid => {OutboundPending}
      case MarkOutboundClaimed(_) => {OutboundPaid}
      case MarkInboundClaimed => {OutboundClaimed}
      case MarkInboundCancelled => {Reserved, Active, Claimable}
      case MarkOutboundCancelled => {OutboundRequested, OutboundPending, OutboundPaid, OutboundClaimed}
      case MarkFailed => {Claimable, OutboundRequested}
    }

    function To(): Status {
      match this
      case MarkClaimable(_, _) => Claimable
      case MarkOutboundRequested => OutboundRequested
      case MarkOutboundPending(_) => OutboundPending
      case MarkOutboundPaid => OutboundPaid
      case MarkOutboundClaimed(_) => OutboundClaimed
      case MarkInboundClaimed => InboundClaimed
      case MarkInboundCancelled => InboundCancelled
      case MarkOutboundCancelled => OutboundCancelled
      case MarkFailed => Failed
    }

    /** The rank from which a call that changed nothing counts as a harmless replay. */
    function Expected(): Status {
      match this
      case MarkClaimable(_, _) => Active
      case MarkOutboundRequested => Claimable
      case MarkOutboundPending(_) => OutboundRequested
      case MarkOutboundPaid => OutboundPending
      case MarkOutboundClaimed(_) => OutboundPaid
      case MarkInboundClaimed => OutboundClaimed
      case MarkInboundCancelled => Claimable
      case MarkOutboundCancelled => OutboundRequested
      case MarkFailed => Claimable
    }

    /** The argument checks made before the row is touched. */
    predicate Accepts(sha: ShaHex, row: Invoice) {
      match this
      case MarkClaimable(amount, deadline) => amount != 0 && deadline != Some(0) && row.amountMsat == amount
      case MarkOutboundPending(invoice) => invoice != ""
      case MarkOutboundClaimed(preimage) => sha(preimage) == row.paymentHash
      case _ => true
    }
  }

  datatype MarkResult = Transitioned | AlreadyBeyond | NotFound | Invalid

  function Coalesce<T>(a: Option<T>, b: Option<T>): Option<T> {
    if a.Some? then a else b
  }

  /** The row after the update, when it applies. */
  function Updated(row: Invoice, m: Mark): Invoice {
    match m
    case MarkClaimable(_, deadline) => row.(status := Claimable, claimDeadline := Coalesce(row.claimDeadline, deadline))
    case MarkOutboundPending(invoice) =>
      row.(status := OutboundPending, outboundInvoice := Coalesce(row.outboundInvoice, Some(invoice)))
    case MarkOutboundClaimed(preimage) =>
      row.(status := OutboundClaimed, preimage := Coalesce(row.preimage, Some(preimage)))
    case _ => row.(status := m.To())
  }

  function MarkRow(sha: ShaHex, row: Invoice, m: Mark): Invoice {
    if m.Accepts(sha, row) && row.status in m.From() then Updated(row, m) else row
  }

  function MarkOutcome(sha: ShaHex, row: Invoice, m: Mark): MarkResult {
    if !m.Accepts(sha, row) then Invalid
    else if row.status in m.From() then Transitioned
    else if row.status.AtOrBeyond(m.Expected()) then AlreadyBeyond
    else NotFound
  }

  /** When an update moves a row: from the one status before it, a held HTLC only with exactly
      the row's amount, an invoice only when there is one, a preimage only of its hash. */
  predicate Applies(sha: ShaHex, row: Invoice, m: Mark) {
    match m
    case MarkClaimable(amount, deadline) =>
      row.status == Active && amount > 0 && amount == row.amountMsat && deadline != Some(0)
    case MarkOutboundRequested => row.status == Claimable
    case MarkOutboundPending(invoice) => row.status == OutboundRequested && invoice != ""
    case MarkOutboundPaid => row.status == OutboundPending
    case MarkOutboundClaimed(preimage) => row.status == OutboundPaid && sha(preimage) == row.paymentHash
    case MarkInboundClaimed => row.status == OutboundClaimed
    case MarkInboundCancelled => row.status == Reserved || row.status == Active || row.status == Claimable
    case MarkOutboundCancelled =>
      row.status == OutboundRequested || row.status == OutboundPending || row.status == OutboundPaid || row.status == OutboundClaimed
    case MarkFailed => row.status == Claimable || row.status == OutboundRequested
  }

  function Target(m: Mark): Status {
    match m
    case MarkClaimable(_, _) => Claimable
    case MarkOutboundRequested => OutboundRequested
    case MarkOutboundPending(_) => OutboundPending
    case MarkOutboundPaid => OutboundPaid
    case MarkOutboundClaimed(_) => OutboundClaimed
    case MarkInboundClaimed => InboundClaimed
    case MarkInboundCancelled => InboundCancelled
    case MarkOutboundCancelled => OutboundCancelled
    case MarkFailed => Failed
  }

  /** An update moves the row exactly then, to its own status, and of the other fields fills
      in at most the one it brings, where that is still empty. */
  lemma MarkTransitionsIff(sha: ShaHex, row: Invoice, m: Mark)
    ensures MarkOutcome(sha, row, m) == Transitioned <==> Applies(sha, row, m)
    ensures !Applies(sha, row, m) ==> MarkRow(sha, row, m) == row
    ensures Applies(sha, row, m) ==>
              var row' := MarkRow(sha, row, m);
              && row'.status == Target(m)
              && (row'.claimDeadline == row.claimDeadline
                  || (m.MarkClaimable? && row.claimDeadline == None && row'.claimDeadline == m.deadline))
              && (row'.outboundInvoice == row.outboundInvoice
                  || (m.MarkOutboundPending? && row.outboundInvoice == None && row'.outboundInvoice == Some(m.invoice)))
              && (row'.preimage == row.preimage
                  || (m.MarkOutboundClaimed? && row.preimage == None && row'.preimage == Some(m.preimage)))
              && row' == row.(status := row'.status, claimDeadline := row'.claimDeadline,
                              outboundInvoice := row'.outboundInvoice, preimage := row'.preimage)
    ensures Applies(sha, row, m) ==>
              (m.MarkClaimable? && m.deadline.Some? ==> MarkRow(sha, row, m).claimDeadline.Some?)
              && (m.MarkOutboundPending? ==> MarkRow(sha, row, m).outboundInvoice.Some?)
              && (m.MarkOutboundClaimed? ==> MarkRow(sha, row, m).preimage.Some?)
  {}

  /** Every update keeps or raises the rank, leaves terminal rows alone, never lowers a
      recorded deadline or preimage to null, and reports a transition exactly when it raised
      the rank. */
  lemma MarkMovesForward(sha: ShaHex, row: Invoice, m: Mark)
    ensures MarkRow(sha, row, m).status.Rank() >= row.status.Rank()
    ensures row.status.IsTerminal() ==> MarkRow(sha, row, m) == row
    ensures MarkOutcome(sha, row, m) == Transitioned <==> MarkRow(sha, row, m).status.Rank() > row.status.Rank()
    ensures row.claimDeadline.Some? ==> MarkRow(sha, row, m).claimDeadline == row.claimDeadline
    ensures row.preimage.Some? ==> MarkRow(sha, row, m).preimage == row.preimage
    ensures MarkRow(sha, row, m).paymentHash == row.paymentHash
  {}

  /** The statuses an update comes too early for; nothing is too early to cancel inbound. */
  function TooEarly(m: Mark): set<Status> {
    match m
    case MarkClaimable(_, _) => {Reserved}
    case MarkOutboundRequested => {Reserved, Active}
    case MarkOutboundPending(_) => {Reserved, Active, Claimable}
    case MarkOutboundPaid => {Reserved, Active, Claimable, OutboundRequested}
    case MarkOutboundClaimed(_) => {Reserved, Active, Claimable, OutboundRequested, OutboundPending}
    case MarkInboundClaimed => {Reserved, Active, Claimable, OutboundRequested, OutboundPending, OutboundPaid}
    case MarkInboundCancelled => {}
    case MarkOutboundCancelled => {Reserved, Active, Claimable}
    case MarkFailed => {Reserved, Active}
  }

  /** What an update answers when it moves nothing: its arguments are wrong, whatever the status;
      it came too early, as if there were no such row; or the row is there or further. */
  lemma MarkAnswers(sha: ShaHex, row: Invoice, m: Mark)
    ensures MarkOutcome(sha, row, m) == Invalid <==>
              || (m.MarkClaimable? && (m.amountMsat == 0 || m.deadline == Some(0) || m.amountMsat != row.amountMsat))
              || (m.MarkOutboundPending? && m.invoice == "")
              || (m.MarkOutboundClaimed? && sha(m.preimage) != row.paymentHash)
    ensures MarkOutcome(sha, row, m) != Invalid ==> (MarkOutcome(sha, row, m) == NotFound <==> row.status in TooEarly(m))
  {}

  /** A row is terminal exactly when no update, whatever its arguments, moves it. */
  lemma TerminalIff(sha: ShaHex, row: Invoice)
    ensures row.status.IsTerminal() <==> forall m :: MarkRow(sha, row, m) == row
  {
    if !row.status.IsTerminal() {
      var m := if row.status in {Reserved, Active, Claimable} then MarkInboundCancelled else MarkOutboundCancelled;
      assert MarkRow(sha, row, m) != row;
    }
  }

  /** Replaying an update after any number of further updates changes nothing and is no
      error. */
  lemma ReplayIsHarmless(sha: ShaHex, row: Invoice, m: Mark, later: seq<Mark>)
    requires MarkOutcome(sha, row, m) == Transitioned
    ensures MarkRow(sha, MarkAll(sha, MarkRow(sha, row, m), later), m) == MarkAll(sha, MarkRow(sha, row, m), later)
    ensures MarkOutcome(sha, MarkAll(sha, MarkRow(sha, row, m), later), m) == AlreadyBeyond
  {
    MarkAllMovesForward(sha, MarkRow(sha, row, m), later);
  }

  function MarkAll(sha: ShaHex, row: Invoice, ms: seq<Mark>): Invoice
    decreases |ms|
  {
    if ms == [] then row else MarkAll(sha, MarkRow(sha, row, ms[0]), ms[1..])
  }

  lemma {:induction false} MarkAllMovesForward(sha: ShaHex, row: Invoice, ms: seq<Mark>)
    ensures MarkAll(sha, row, ms).status.Rank() >= row.status.Rank()
    ensures MarkAll(sha, row, ms).paymentHash == row.paymentHash
    ensures MarkAll(sha, row, ms).amountMsat == row.amountMsat
    ensures row.status.IsTerminal() ==> MarkAll(sha, row, ms) == row
    decreases |ms|
  {
    if ms != [] {
      MarkMovesForward(sha, row, ms[0]);
      MarkAllMovesForward(sha, MarkRow(sha, row, ms[0]), ms[1..]);
    }
  }
}
