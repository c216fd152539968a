/** Quoting: the address book's payout pins, the resolvers of both legs, and what discovery
    advertises. */
module AssetQuotes {
  import opened Wrappers
  import opened Assets

  // ---------------------------------------------------------------- pins

  /** The payout asset of each account; None is an account not pinned yet. */
  type Pins = map<string, Option<string>>

  predicate Unpinned(pins: Pins, peer: string) {
    peer in pins && (pins[peer] == None || pins[peer] == Some(""))
  }

  function Pin(pins: Pins, peer: string, asset: string): Pins {
    if asset != "" && Unpinned(pins, peer) then pins[peer := Some(asset)] else pins
  }

  function Open(pins: Pins, peer: string): Pins {
    if peer in pins then pins else pins[peer := None]
  }

  class AddressBook {
    var pins: map<string, Option<string>>

    constructor ()
      ensures pins == map[]
    {
      pins := map[];
    }

    method InsertLightningAddressAccount(peer: string) returns (inserted: bool)
      modifies this
      ensures pins == Open(old(pins), peer) && inserted == (peer !in old(pins))
    {
      inserted := peer !in pins;
      if inserted {
        pins := pins[peer := None];
      }
    }

    method SetLightningAddressPayoutAsset(peer: string, asset: string) returns (ok: bool)
      modifies this
      ensures pins == (if peer == "" then old(pins) else Pin(old(pins), peer, asset)) && ok == (peer != "" && asset != "")
    {
      if peer == "" || asset == "" {
        return false;
      }
      if peer in pins && (pins[peer] == None || pins[peer] == Some("")) {
        pins := pins[peer := Some(asset)];
      }
      return true;
    }

    /** The asset on the account as the caller loaded it, else the one its channels tell, which
        is pinned on the way. */
    method PayoutAssetID(cfg: Config, peer: string, loaded: Option<string>, channels: Option<seq<Channel>>)
      returns (r: Result<string, AssetError>)
      modifies this
      ensures loaded.Some? && loaded != Some("") ==> r == Ok(loaded.value) && pins == old(pins)
      ensures !(loaded.Some? && loaded != Some("")) ==>
                if peer == "" then r == Ok("") && pins == old(pins)
                else if channels == None then r == Err(ChannelsUnknown) && pins == old(pins)
                else r.Ok? && IsPayout(cfg, EligibleAssets(cfg, peer, channels.value), r.value) && pins == Pin(old(pins), peer, r.value)
    {
      if loaded.Some? && loaded.value != "" {
        return Ok(loaded.value);
      }
      if peer == "" {
        return Ok("");
      }
      if channels == None {
        return Err(ChannelsUnknown);
      }
      var asset := PayoutAssetFromChannelList(cfg, peer, channels.value);
      if asset == "" {
        return Ok("");
      }
      var _ := SetLightningAddressPayoutAsset(peer, asset);
      return Ok(asset);
    }
  }

  datatype PinEvent = Opened(peer: string) | Observed(peer: string, asset: string)

  function PinRun(pins: Pins, es: seq<PinEvent>): Pins
    decreases |es|
  {
    if es == [] then pins
    else PinRun(match es[0] case Opened(p) => Open(pins, p) case Observed(p, a) => Pin(pins, p, a), es[1..])
  }

  /** Once pinned, an account's payout asset never changes, whatever is observed later. */
  lemma {:induction false} PinnedForever(pins: Pins, es: seq<PinEvent>, peer: string)
    requires peer in pins && pins[peer].Some? && pins[peer] != Some("")
    ensures peer in PinRun(pins, es) && PinRun(pins, es)[peer] == pins[peer]
    decreases |es|
  {
    if es != [] {
      PinnedForever(match es[0] case Opened(p) => Open(pins, p) case Observed(p, a) => Pin(pins, p, a), es[1..], peer);
    }
  }

  /** The first non-empty asset observed for an open account is the one that stays. */
  lemma FirstObservationWins(pins: Pins, peer: string, asset: string, later: seq<PinEvent>)
    requires peer in pins && (pins[peer] == None || pins[peer] == Some("")) && asset != ""
    ensures peer in PinRun(Pin(pins, peer, asset), later) && PinRun(Pin(pins, peer, asset), later)[peer] == Some(asset)
  {
    PinnedForever(Pin(pins, peer, asset), later, peer);
  }

  // ---------------------------------------------------------------- both legs

  function Same(asset: Option<string>, amount: Option<nat>): Legs { Legs(asset, amount, asset, amount, false) }

  function Converting(inbound: string, outbound: string, amount: Option<nat>): Legs {
    Legs(Some(inbound), amount, Some(outbound), amount, true)
  }

  /** The callback: the payer names the inbound asset, the address fixes the outbound one. */
  function ResolveInvoice(cfg: Config, meta: Metadata, payout: Result<string, AssetError>,
                          asset: Option<string>, amount: Option<nat>): Result<Legs, AssetError> {
    if asset == None then Ok(Same(asset, amount))
    else if asset == Some("") then Err(NoAsset)
    else match payout
      case Err(e) => Err(e)
      case Ok(p) =>
        if p == "" then (if Eligible(cfg, asset.value) then Ok(Same(asset, amount)) else Err(NotEligible))
        else if asset.value == p then Ok(Same(asset, amount))
        else match EnsureConvertiblePair(cfg, meta, asset.value, p)
          case Err(e) => Err(e)
          case Ok(_) => Ok(Converting(asset.value, p, amount))
  }

  /** The inbound asset the caller names or, unnamed, the only one there is. */
  function InboundFor(cfg: Config, named: string, outbound: string): Result<string, AssetError> {
    if named != "" then Ok(named)
    else
      var cs := Counterparts(cfg.pairs, outbound, |cfg.pairs|);
      if |cs| == 0 then Ok(outbound) else if |cs| == 1 then Ok(cs[0]) else Err(Ambiguous)
  }

  function PositiveAmount(amount: int): Option<nat> {
    if amount > 0 then Some(amount) else None
  }

  /** A lightning receive: the signed invoice fixes the outbound leg. */
  function ResolveReceive(cfg: Config, meta: Metadata, named: string, outbound: string, amount: int): Result<Legs, AssetError> {
    if outbound == "" then Err(NoAsset)
    else match InboundFor(cfg, named, outbound)
      case Err(e) => Err(e)
      case Ok(inbound) =>
        if inbound == outbound
        then (if inbound in cfg.supported then Ok(Same(Some(inbound), PositiveAmount(amount))) else Err(NotSupported))
        else match EnsureConvertiblePair(cfg, meta, inbound, outbound)
          case Err(e) => Err(e)
          case Ok(_) => Ok(Converting(inbound, outbound, PositiveAmount(amount)))
  }

  /** A relayed payment: the third party's invoice fixes the outbound leg. */
  function ResolveSend(cfg: Config, meta: Metadata, named: string, outbound: string, amount: nat): Result<Legs, AssetError> {
    match InboundFor(cfg, named, outbound)
    case Err(e) => Err(e)
    case Ok(inbound) =>
      if inbound == outbound
      then (if Eligible(cfg, inbound) then Ok(Same(Some(inbound), Some(amount))) else Err(NotEligible))
      else match EnsureConvertiblePair(cfg, meta, inbound, outbound)
        case Err(e) => Err(e)
        case Ok(_) => Ok(Converting(inbound, outbound, Some(amount)))
  }

  /** A sound pair of legs: one amount, converted exactly when the assets differ, and then
      declared convertible, eligible on both sides and of one precision. */
  predicate SoundLegs(cfg: Config, meta: Metadata, l: Legs) {
    && l.inboundAmount == l.outboundAmount
    && (l.converted <==> l.inbound != l.outbound)
    && (l.converted ==> l.inbound.Some? && l.outbound.Some? && SoundConversion(cfg, meta, l.inbound.value, l.outbound.value))
  }

  predicate SoundConversion(cfg: Config, meta: Metadata, a: string, b: string) {
    && Eligible(cfg, a) && Eligible(cfg, b) && IsConvertiblePair(cfg, a, b)
    && meta(a).Some? && meta(a) == meta(b)
  }

  /** Whatever any of the three resolvers quotes is sound. */
  lemma QuotedLegsAreSound(cfg: Config, meta: Metadata, payout: Result<string, AssetError>, asset: Option<string>,
                           amount: Option<nat>, named: string, outbound: string, received: int, sent: nat)
    ensures ResolveInvoice(cfg, meta, payout, asset, amount).Ok? ==>
              SoundLegs(cfg, meta, ResolveInvoice(cfg, meta, payout, asset, amount).value)
    ensures ResolveReceive(cfg, meta, named, outbound, received).Ok? ==>
              SoundLegs(cfg, meta, ResolveReceive(cfg, meta, named, outbound, received).value)
    ensures ResolveSend(cfg, meta, named, outbound, sent).Ok? ==>
              SoundLegs(cfg, meta, ResolveSend(cfg, meta, named, outbound, sent).value)
  {}

  // ---------------------------------------------------------------- what is quoted

  predicate Traded(cfg: Config, id: string) {
    id != "" && (id in cfg.supported || id in cfg.convertible)
  }

  predicate Declared(cfg: Config, a: string, b: string) {
    exists i :: 0 <= i < |cfg.pairs| && (cfg.pairs[i] == (a, b) || cfg.pairs[i] == (b, a))
  }

  /** Both assets are traded, differ, are declared convertible, and the node knows both
      precisions and they are one. */
  predicate Converts(cfg: Config, meta: Metadata, a: string, b: string) {
    Traded(cfg, a) && Traded(cfg, b) && a != b && Declared(cfg, a, b) && meta(a).Some? && meta(b).Some? && meta(a).value == meta(b).value
  }

  /** A conversion is allowed exactly then; otherwise the error names what is missing, in this
      order: an eligible asset, a declared pair, a precision, the same precision. */
  lemma ConvertsIff(cfg: Config, meta: Metadata, a: string, b: string)
    ensures EnsureConvertiblePair(cfg, meta, a, b)
            == if Converts(cfg, meta, a, b) then Ok(())
               else if !Traded(cfg, a) || !Traded(cfg, b) then Err(NotEligible)
               else if a == b || !Declared(cfg, a, b) then Err(NotConvertible)
               else if !(meta(a).Some? && meta(b).Some?) then Err(NoMetadata)
               else Err(NotConvertible)
  {
    if Declared(cfg, a, b) {
      var i :| 0 <= i < |cfg.pairs| && (cfg.pairs[i] == (a, b) || cfg.pairs[i] == (b, a));
      assert Connects(cfg.pairs[i], a, b);
    }
    if exists i :: 0 <= i < |cfg.pairs| && Connects(cfg.pairs[i], a, b) {
      var i :| 0 <= i < |cfg.pairs| && Connects(cfg.pairs[i], a, b);
      assert cfg.pairs[i] == (a, b) || cfg.pairs[i] == (b, a);
    }
  }

  /** The callback: without an asset nothing is converted; otherwise the payer pays in the
      asset named, the recipient gets the payout asset, or the same one while it has none,
      and both legs carry the amount asked. It is quoted exactly when that asset is the
      payout asset, or converts into it, or is traded while there is none. */
  lemma CallbackQuotes(cfg: Config, meta: Metadata, payout: Result<string, AssetError>, asset: Option<string>, amount: Option<nat>)
    ensures asset == None ==> ResolveInvoice(cfg, meta, payout, asset, amount) == Ok(Legs(None, amount, None, amount, false))
    ensures asset.Some? && payout.Ok? ==>
              var (x, p, r) := (asset.value, payout.value, ResolveInvoice(cfg, meta, payout, asset, amount));
              && (r.Ok? <==> x != "" && if p == "" then Traded(cfg, x) else x == p || Converts(cfg, meta, x, p))
              && (r.Ok? ==> r.value == Legs(Some(x), amount, Some(if p == "" then x else p), amount, p != "" && x != p))
    ensures asset.Some? && asset != Some("") && payout.Err? ==> ResolveInvoice(cfg, meta, payout, asset, amount) == Err(payout.error)
  {
    if asset.Some? && payout.Ok? {
      ConvertsIff(cfg, meta, asset.value, payout.value);
    }
  }

  /** The inbound asset is the one named; unnamed it is the only one declared convertible with
      the outbound asset, or that asset itself when there is none. */
  ghost predicate InboundIs(cfg: Config, named: string, outbound: string, x: string) {
    if named != "" then x == named
    else if exists y :: y != "" && y != outbound && Declared(cfg, y, outbound)
    then x != "" && x != outbound && Declared(cfg, x, outbound)
         && forall y :: y != "" && y != outbound && Declared(cfg, y, outbound) ==> y == x
    else x == outbound
  }

  lemma DeclaredIsPair(cfg: Config, a: string, b: string)
    ensures IsConvertiblePair(cfg, a, b) <==> a != "" && b != "" && a != b && Declared(cfg, a, b)
  {
    if Declared(cfg, a, b) {
      var i :| 0 <= i < |cfg.pairs| && (cfg.pairs[i] == (a, b) || cfg.pairs[i] == (b, a));
      assert Connects(cfg.pairs[i], a, b);
    }
    if exists i :: 0 <= i < |cfg.pairs| && Connects(cfg.pairs[i], a, b) {
      var i :| 0 <= i < |cfg.pairs| && Connects(cfg.pairs[i], a, b);
      assert cfg.pairs[i] == (a, b) || cfg.pairs[i] == (b, a);
    }
  }

  lemma InboundForIs(cfg: Config, named: string, outbound: string, x: string)
    requires outbound != ""
    ensures InboundFor(cfg, named, outbound) == Ok(x) <==> InboundIs(cfg, named, outbound, x)
  {
    if named == "" {
      InboundIsNeverGuessed(cfg, outbound);
      forall y ensures IsConvertiblePair(cfg, y, outbound) <==> y != "" && y != outbound && Declared(cfg, y, outbound) {
        DeclaredIsPair(cfg, y, outbound);
      }
      match InboundFor(cfg, "", outbound)
      case Ok(z) => assert z != outbound ==> IsConvertiblePair(cfg, z, outbound);
      case Err(_) =>
        var y, z :| y != z && IsConvertiblePair(cfg, y, outbound) && IsConvertiblePair(cfg, z, outbound);
        assert Declared(cfg, y, outbound) && Declared(cfg, z, outbound);
    }
  }

  /** A receive: the sender pays in the inbound asset, the signed invoice's asset goes out, both
      with the amount asked when it is positive. */
  lemma ReceiveQuotes(cfg: Config, meta: Metadata, named: string, outbound: string, amount: int)
    ensures var r := ResolveReceive(cfg, meta, named, outbound, amount);
            && (r.Ok? <==> outbound != "" && exists x :: InboundIs(cfg, named, outbound, x)
                                                        && if x == outbound then x in cfg.supported else Converts(cfg, meta, x, outbound))
            && (r.Ok? ==> r.value.inbound.Some? && InboundIs(cfg, named, outbound, r.value.inbound.value)
                          && var (x, n) := (r.value.inbound, if amount > 0 then Some(amount) else None);
                             r.value == Legs(x, n, Some(outbound), n, x != Some(outbound)))
  {
    if outbound != "" {
      forall x ensures InboundFor(cfg, named, outbound) == Ok(x) <==> InboundIs(cfg, named, outbound, x) {
        InboundForIs(cfg, named, outbound, x);
      }
      var inbound := InboundFor(cfg, named, outbound);
      if inbound.Ok? {
        ConvertsIff(cfg, meta, inbound.value, outbound);
        assert InboundIs(cfg, named, outbound, inbound.value);
      }
    }
  }

  /** A relayed payment: the caller pays in the inbound asset, the third party's asset goes
      out, both with the amount of its invoice. */
  lemma SendQuotes(cfg: Config, meta: Metadata, named: string, outbound: string, amount: nat)
    requires outbound != ""
    ensures var r := ResolveSend(cfg, meta, named, outbound, amount);
            && (r.Ok? <==> exists x :: InboundIs(cfg, named, outbound, x)
                                       && if x == outbound then Traded(cfg, x) else Converts(cfg, meta, x, outbound))
            && (r.Ok? ==> r.value.inbound.Some? && InboundIs(cfg, named, outbound, r.value.inbound.value)
                          && r.value == Legs(r.value.inbound, Some(amount), Some(outbound), Some(amount), r.value.inbound != Some(outbound)))
  {
    forall x ensures InboundFor(cfg, named, outbound) == Ok(x) <==> InboundIs(cfg, named, outbound, x) {
      InboundForIs(cfg, named, outbound, x);
    }
    var inbound := InboundFor(cfg, named, outbound);
    if inbound.Ok? {
      ConvertsIff(cfg, meta, inbound.value, outbound);
      assert InboundIs(cfg, named, outbound, inbound.value);
    }
  }

  lemma ConversionIsSymmetric(cfg: Config, meta: Metadata, a: string, b: string)
    ensures EnsureConvertiblePair(cfg, meta, a, b).Ok? <==> EnsureConvertiblePair(cfg, meta, b, a).Ok?
  {}

  /** One declared pair serves a checkout in one direction and, in both other flows, a payment
      back in the other. */
  lemma PairServesBothDirections(cfg: Config, meta: Metadata, x: string, p: string, amount: nat)
    requires x != "" && p != "" && x != p
    ensures ResolveInvoice(cfg, meta, Ok(p), Some(x), Some(amount)).Ok? <==> ResolveSend(cfg, meta, p, x, amount).Ok?
    ensures ResolveSend(cfg, meta, p, x, amount).Ok? <==> ResolveReceive(cfg, meta, p, x, amount).Ok?
  {}

  /** An unnamed inbound asset is never guessed: with one declared counterpart it is that one,
      with none the outbound asset itself, with more the quote is refused. */
  lemma InboundIsNeverGuessed(cfg: Config, outbound: string)
    requires outbound != ""
    ensures match InboundFor(cfg, "", outbound)
            case Ok(x) =>
              if x == outbound then forall y :: !IsConvertiblePair(cfg, y, outbound)
              else forall y :: IsConvertiblePair(cfg, y, outbound) <==> y == x
            case Err(e) =>
              e == Ambiguous && exists y, z :: y != z && IsConvertiblePair(cfg, y, outbound) && IsConvertiblePair(cfg, z, outbound)
  {
    CounterpartsAreThePairs(cfg.pairs, outbound, |cfg.pairs|);
    var cs := Counterparts(cfg.pairs, outbound, |cfg.pairs|);
    assert forall y :: y in cs <==> IsConvertiblePair(cfg, y, outbound);
    if |cs| > 1 {
      assert cs[0] in cs && cs[1] in cs && cs[0] != cs[1];
    } else if |cs| == 1 {
      assert cs[0] in cs;
    }
  }

  // ---------------------------------------------------------------- discovery

  /** The counterparts the callback would convert, in order. */
  function Advertised(cfg: Config, meta: Metadata, payout: string, cs: seq<string>): seq<AssetInfo> {
    if cs == [] then []
    else
      var before := Advertised(cfg, meta, payout, cs[..|cs| - 1]);
      var x := cs[|cs| - 1];
      if EnsureConvertiblePair(cfg, meta, x, payout).Ok? && meta(x).Some? then before + [AssetInfo(x, meta(x).value)] else before
  }

  function Accepted(cfg: Config, meta: Metadata, payout: string): seq<AssetInfo> {
    if meta(payout) == None then []
    else [AssetInfo(payout, meta(payout).value)]
         + Advertised(cfg, meta, payout, Counterparts(cfg.pairs, payout, |cfg.pairs|))
  }

  method AcceptedAssets(cfg: Config, meta: Metadata, payout: string) returns (accepted: seq<AssetInfo>)
    ensures accepted == Accepted(cfg, meta, payout)
  {
    if meta(payout) == None {
      return [];
    }
    accepted := [AssetInfo(payout, meta(payout).value)];
    var cs := ConvertibleCounterparts(cfg, payout);
    for i := 0 to |cs|
      invariant accepted == [AssetInfo(payout, meta(payout).value)] + Advertised(cfg, meta, payout, cs[..i])
    {
      assert cs[..i + 1][..i] == cs[..i];
      if EnsureConvertiblePair(cfg, meta, cs[i], payout).Err? {
        continue;
      }
      if meta(cs[i]) == None {
        continue;
      }
      accepted := accepted + [AssetInfo(cs[i], meta(cs[i]).value)];
    }
    assert cs[..|cs|] == cs;
  }

  ghost predicate Advertises(infos: seq<AssetInfo>, x: string) {
    exists i :: 0 <= i < |infos| && infos[i].id == x
  }

  ghost predicate DistinctIds(infos: seq<AssetInfo>) {
    forall i, j :: 0 <= i < j < |infos| ==> infos[i].id != infos[j].id
  }

  lemma {:induction false} AdvertisedAre(cfg: Config, meta: Metadata, payout: string, cs: seq<string>)
    requires DuplicateFree(cs)
    ensures DistinctIds(Advertised(cfg, meta, payout, cs))
    ensures forall x :: Advertises(Advertised(cfg, meta, payout, cs), x) <==> x in cs && EnsureConvertiblePair(cfg, meta, x, payout).Ok?
  {
    if cs != [] {
      var before, last := cs[..|cs| - 1], cs[|cs| - 1];
      AdvertisedAre(cfg, meta, payout, before);
      var infos := Advertised(cfg, meta, payout, before);
      assert last !in before && cs == before + [last];
      assert forall i :: 0 <= i < |infos| ==> Advertises(infos, infos[i].id);
      forall x
        ensures Advertises(Advertised(cfg, meta, payout, cs), x) <==> x in cs && EnsureConvertiblePair(cfg, meta, x, payout).Ok?
      {
        AdvertisesMore(infos, AssetInfo(last, if meta(last).Some? then meta(last).value else 0), x);
      }
    }
  }

  /** Discovery names each asset with the precision the node gives for it. */
  lemma {:induction false} AdvertisedPrecision(cfg: Config, meta: Metadata, payout: string, cs: seq<string>)
    ensures forall i :: 0 <= i < |Advertised(cfg, meta, payout, cs)| ==>
              meta(Advertised(cfg, meta, payout, cs)[i].id) == Some(Advertised(cfg, meta, payout, cs)[i].precision)
  {
    if cs != [] {
      AdvertisedPrecision(cfg, meta, payout, cs[..|cs| - 1]);
    }
  }

  lemma AcceptedPrecision(cfg: Config, meta: Metadata, payout: string, i: nat)
    requires i < |Accepted(cfg, meta, payout)|
    ensures meta(Accepted(cfg, meta, payout)[i].id) == Some(Accepted(cfg, meta, payout)[i].precision)
  {
    AdvertisedPrecision(cfg, meta, payout, Counterparts(cfg.pairs, payout, |cfg.pairs|));
  }

  lemma AdvertisesMore(infos: seq<AssetInfo>, info: AssetInfo, x: string)
    ensures Advertises(infos + [info], x) <==> Advertises(infos, x) || info.id == x
  {
    if Advertises(infos, x) {
      var i :| 0 <= i < |infos| && infos[i].id == x;
      assert (infos + [info])[i].id == x;
    }
    assert (infos + [info])[|infos|] == info;
  }

  lemma DiscoveryShape(cfg: Config, meta: Metadata, payout: string)
    requires payout != ""
    ensures DistinctIds(Accepted(cfg, meta, payout))
    ensures Accepted(cfg, meta, payout) != [] ==> Accepted(cfg, meta, payout)[0].id == payout
  {
    var cs := Counterparts(cfg.pairs, payout, |cfg.pairs|);
    var rest := Advertised(cfg, meta, payout, cs);
    CounterpartsAreThePairs(cfg.pairs, payout, |cfg.pairs|);
    AdvertisedAre(cfg, meta, payout, cs);
    assert forall i :: 0 <= i < |rest| ==> Advertises(rest, rest[i].id);
    assert payout !in cs;
  }

  lemma DiscoveredIsQuoted(cfg: Config, meta: Metadata, payout: string, x: string, amount: Option<nat>)
    requires payout != "" && meta(payout).Some?
    ensures Advertises(Accepted(cfg, meta, payout), x) <==> ResolveInvoice(cfg, meta, Ok(payout), Some(x), amount).Ok?
  {
    var cs := Counterparts(cfg.pairs, payout, |cfg.pairs|);
    CounterpartsAreThePairs(cfg.pairs, payout, |cfg.pairs|);
    AdvertisedAre(cfg, meta, payout, cs);
    AdvertisesFirst(AssetInfo(payout, meta(payout).value), Advertised(cfg, meta, payout, cs), x);
    assert x in cs <==> IsConvertiblePair(cfg, x, payout);
  }

  /** Discovery lists the payout asset first and never an asset twice; and it lists exactly
      what the callback quotes for that address precisely when the node can describe the
      payout asset. */
  lemma DiscoveryEqualsCallbackIff(cfg: Config, meta: Metadata, payout: string, amount: Option<nat>)
    requires payout != ""
    ensures DistinctIds(Accepted(cfg, meta, payout))
    ensures Accepted(cfg, meta, payout) != [] ==> Accepted(cfg, meta, payout)[0].id == payout
    ensures (forall x :: Advertises(Accepted(cfg, meta, payout), x) <==>
                           ResolveInvoice(cfg, meta, Ok(payout), Some(x), amount).Ok?)
            <==> meta(payout).Some?
  {
    DiscoveryShape(cfg, meta, payout);
    if meta(payout) == None {
      UndescribedPayout(cfg, meta, payout, payout, amount);
    } else {
      forall x
        ensures Advertises(Accepted(cfg, meta, payout), x) <==> ResolveInvoice(cfg, meta, Ok(payout), Some(x), amount).Ok?
      {
        DiscoveredIsQuoted(cfg, meta, payout, x, amount);
      }
    }
  }

  lemma AdvertisesFirst(info: AssetInfo, infos: seq<AssetInfo>, x: string)
    ensures Advertises([info] + infos, x) <==> Advertises(infos, x) || info.id == x
  {
    if Advertises(infos, x) {
      var i :| 0 <= i < |infos| && infos[i].id == x;
      assert ([info] + infos)[i + 1].id == x;
    }
    assert ([info] + infos)[0] == info;
  }

  /** Without that description discovery is empty while the callback still quotes the payout
      asset itself, and nothing else. */
  lemma UndescribedPayout(cfg: Config, meta: Metadata, payout: string, x: string, amount: Option<nat>)
    requires payout != "" && meta(payout) == None
    ensures Accepted(cfg, meta, payout) == []
    ensures ResolveInvoice(cfg, meta, Ok(payout), Some(x), amount).Ok? <==> x == payout
  {}
}
