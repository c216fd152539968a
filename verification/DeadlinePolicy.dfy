/** Block-deadline arithmetic with the machine widths the service uses: unsigned 64-bit
    block counts that wrap, signed 64-bit quotes, 32-bit deadlines. */
module DeadlinePolicy {
  import opened Wrappers

  const FAIL_BACK_BUFFER := 39
  const MIN_FINAL_BUFFER := 3
  const DEFAULT_INBOUND_DELTA := 144
  const DEFAULT_OUTBOUND_DELTA := 42
  const DEFAULT_CLAIM_MARGIN := 12
  const DEFAULT_RETRY_BASE := 30_000_000_000

  const TWO_63 := 0x8000_0000_0000_0000
  const TWO_64 := 0x1_0000_0000_0000_0000

  type Uint16 = n: int | 0 <= n < 0x1_0000
  type Uint32 = n: int | 0 <= n < 0x1_0000_0000
  type Uint64 = n: int | 0 <= n < TWO_64
  type Int64 = n: int | -TWO_63 <= n < TWO_63

  function WrapUint64(n: int): Uint64 { n % TWO_64 }

  function WrapInt64(n: int): Int64 {
    if n % TWO_64 < TWO_63 then n % TWO_64 else n % TWO_64 - TWO_64
  }

  /** The settings the deadline and retry arithmetic reads; durations in nanoseconds. */
  datatype Config = Config(inboundDelta: Uint16, outboundDelta: Uint16, claimMargin: Uint32,
                           retryBase: Int64, retryMax: Int64)

  /** What loading makes of the settings: those left out or out of range get their defaults,
      and all others are kept. */
  ghost predicate Clamped(raw: Config, cfg: Config) {
    && cfg.inboundDelta == (if raw.inboundDelta == 0 then 144 else raw.inboundDelta)
    && cfg.outboundDelta == (if raw.outboundDelta == 0 then 42 else raw.outboundDelta)
    && cfg.claimMargin == (if raw.claimMargin == 0 then 12 else raw.claimMargin)
    && cfg.retryBase == (if raw.retryBase <= 0 then 30_000_000_000 else raw.retryBase)
    && cfg.retryMax == (if raw.retryMax < cfg.retryBase then cfg.retryBase else raw.retryMax)
  }

  method LoadConfig(raw: Config) returns (cfg: Config)
    ensures Clamped(raw, cfg)
  {
    cfg := raw;
    if cfg.inboundDelta == 0 {
      cfg := cfg.(inboundDelta := DEFAULT_INBOUND_DELTA);
    }
    if cfg.outboundDelta == 0 {
      cfg := cfg.(outboundDelta := DEFAULT_OUTBOUND_DELTA);
    }
    if cfg.claimMargin == 0 {
      cfg := cfg.(claimMargin := DEFAULT_CLAIM_MARGIN);
    }
    if cfg.retryBase <= 0 {
      cfg := cfg.(retryBase := DEFAULT_RETRY_BASE);
    }
    if cfg.retryMax < cfg.retryBase {
      cfg := cfg.(retryMax := cfg.retryBase);
    }
  }

  predicate Validates(cfg: Config) {
    && (cfg.inboundDelta != 0 ==> cfg.inboundDelta >= FAIL_BACK_BUFFER + MIN_FINAL_BUFFER)
    && (cfg.outboundDelta != 0 ==> cfg.outboundDelta >= FAIL_BACK_BUFFER + MIN_FINAL_BUFFER)
  }

  function ClaimMargin(cfg: Config): Uint32 {
    if cfg.claimMargin == 0 then DEFAULT_CLAIM_MARGIN else cfg.claimMargin
  }

  // ---------------------------------------------------------------- the gates

  /** Strictly more than `required` blocks are left before the deadline. */
  predicate GateOpens(deadline: Uint32, height: Int64, required: Uint64) {
    deadline > height && WrapUint64(deadline - WrapUint64(height)) > required
  }

  /** Blocks the relay demands before it pays: the margin plus the invoice's final delta. */
  function RelayRequired(margin: Uint32, finalDelta: Uint64): Uint64 {
    WrapUint64(margin + finalDelta)
  }

  /** Blocks demanded when an address payment is reported as held. */
  function InboundRequired(cfg: Config): Uint64 {
    WrapUint64(WrapUint64(cfg.inboundDelta - FAIL_BACK_BUFFER) - MIN_FINAL_BUFFER)
  }

  /** Blocks demanded before the recipient is asked for its invoice. */
  function OutboundRequired(cfg: Config): Uint64 {
    WrapUint64(cfg.outboundDelta + ClaimMargin(cfg))
  }

  /** The blocks a quote counts for an invoice, in the signed width the quote uses. */
  function QuoteNeeds(cfg: Config, finalDelta: Uint64): Int64 {
    WrapInt64(WrapInt64(finalDelta) + ClaimMargin(cfg))
  }

  /** Whether a quote's blocks fit what the inbound invoice leaves. */
  predicate QuoteAdmits(cfg: Config, finalDelta: Uint64) {
    QuoteNeeds(cfg, finalDelta) <= cfg.inboundDelta - FAIL_BACK_BUFFER - MIN_FINAL_BUFFER
  }

  /** The gate never opens with too few blocks left, for any deadline and height, exactly
      when adding the margin to the invoice's delta does not wrap. */
  lemma GateSlackIff(margin: Uint32, finalDelta: Uint64)
    ensures (forall deadline: Uint32, height: Int64 ::
               GateOpens(deadline, height, RelayRequired(margin, finalDelta)) ==> deadline - height > margin + finalDelta)
            <==> margin + finalDelta < TWO_64
  {
    if margin + finalDelta >= TWO_64 {
      var deadline: Uint32, height: Int64 := 0xFFFF_FFFF, 0;
      assert GateOpens(deadline, height, RelayRequired(margin, finalDelta));
      assert deadline - height <= margin + finalDelta;
    } else {
      forall deadline: Uint32, height: Int64 | GateOpens(deadline, height, RelayRequired(margin, finalDelta))
        ensures deadline - height > margin + finalDelta
      {
        GateMeans(deadline, height, RelayRequired(margin, finalDelta));
      }
    }
  }

  /** Unsigned subtraction in the gate computes the true number of blocks left. */
  lemma GateMeans(deadline: Uint32, height: Int64, required: Uint64)
    ensures GateOpens(deadline, height, required) <==> deadline - height > required
  {}

  /** Every deadline the node may report: at least the inbound delta less the fail-back buffer. */
  predicate Promised(cfg: Config, deadline: Uint32, height: Int64) {
    height >= 0 && deadline >= height + cfg.inboundDelta - 39
  }

  /** A quote is admitted exactly when its final delta and the margin fit the inbound delta less
      42 blocks, as long as they do not reach 2^63. */
  lemma QuoteAdmitsIff(cfg: Config, finalDelta: Uint64)
    requires finalDelta + ClaimMargin(cfg) < 0x8000_0000_0000_0000
    ensures QuoteAdmits(cfg, finalDelta)
            <==> finalDelta + (if cfg.claimMargin == 0 then 12 else cfg.claimMargin) <= cfg.inboundDelta - 42
  {}

  /** With the default settings every ordinary final delta, up to 90 blocks, is admitted. */
  lemma DefaultQuotes(finalDelta: Uint64)
    requires finalDelta < 0x8000_0000_0000_0000 - 12
    ensures QuoteAdmits(Config(144, 42, 12, 1, 1), finalDelta) <==> finalDelta <= 90
  {
    QuoteAdmitsIff(Config(144, 42, 12, 1, 1), finalDelta);
  }

  lemma NeedIsRequired(cfg: Config, finalDelta: Uint64)
    ensures var need := QuoteNeeds(cfg, finalDelta);
            RelayRequired(ClaimMargin(cfg), finalDelta) == if need >= 0 then need else need + TWO_64
  {
    assert (WrapInt64(finalDelta) + ClaimMargin(cfg)) % TWO_64 == (finalDelta + ClaimMargin(cfg)) % TWO_64;
  }

  /** A quote that fits the budget passes the relay gate at every promised deadline exactly
      when the blocks it counted did not wrap below zero. */
  lemma QuotePassesGateIff(cfg: Config, finalDelta: Uint64)
    requires QuoteAdmits(cfg, finalDelta)
    ensures (forall deadline: Uint32, height: Int64 | Promised(cfg, deadline, height) ::
               GateOpens(deadline, height, RelayRequired(ClaimMargin(cfg), finalDelta)))
            <==> QuoteNeeds(cfg, finalDelta) >= 0
  {
    var required := RelayRequired(ClaimMargin(cfg), finalDelta);
    NeedIsRequired(cfg, finalDelta);
    if QuoteNeeds(cfg, finalDelta) >= 0 {
      forall deadline: Uint32, height: Int64 | Promised(cfg, deadline, height) ensures GateOpens(deadline, height, required) {
        GateMeans(deadline, height, required);
      }
    } else {
      var deadline: Uint32, height: Int64 := 0xFFFF_FFFF, 0;
      GateMeans(deadline, height, required);
      assert Promised(cfg, deadline, height) && !GateOpens(deadline, height, required);
    }
  }

  /** Such a quote exists: this final delta is admitted and never passes the gate. */
  lemma HugeDeltaIsAdmitted()
    ensures var cfg := Config(144, 42, 12, 1, 1);
            && QuoteAdmits(cfg, TWO_63) && Promised(cfg, 0xFFFF_FFFF, 0)
            && !GateOpens(0xFFFF_FFFF, 0, RelayRequired(12, TWO_63))
  {}

  /** Loaded settings are valid exactly when both deltas are at least 42 blocks. They then never
      make the inbound requirement wrap below zero; with a shorter inbound delta it would
      exceed every possible number of blocks. */
  lemma NoUnderflowIff(raw: Config, cfg: Config)
    requires Clamped(raw, cfg)
    ensures Validates(cfg) <==> cfg.inboundDelta >= 42 && cfg.outboundDelta >= 42
    ensures Validates(cfg) ==> InboundRequired(cfg) == cfg.inboundDelta - 42
    ensures cfg.inboundDelta < 42
            <==> forall deadline: Uint32, height: Int64 | height >= 0 :: !GateOpens(deadline, height, InboundRequired(cfg))
    ensures OutboundRequired(cfg) == cfg.outboundDelta + cfg.claimMargin
  {
    if cfg.inboundDelta < 42 {
      forall deadline: Uint32, height: Int64 | height >= 0 ensures !GateOpens(deadline, height, InboundRequired(cfg)) {
        GateMeans(deadline, height, InboundRequired(cfg));
      }
    } else {
      var deadline: Uint32, height: Int64 := 0xFFFF_FFFF, 0;
      GateMeans(deadline, height, InboundRequired(cfg));
      assert GateOpens(deadline, height, InboundRequired(cfg));
    }
  }
}
