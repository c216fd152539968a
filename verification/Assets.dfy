/** Which assets the two legs of a payment may carry: the asset an address is paid out in,
    the operator's convertible pairs, and the resolvers that fix both legs. */
module Assets {
  import opened Wrappers

  /** Operator settings; ids are trimmed. */
  datatype Config = Config(supported: seq<string>, convertible: seq<string>,
                           pairs: seq<(string, string)>, preference: seq<string>)

  /** A contract's precision, or None while the node cannot tell. */
  type Metadata = string -> Option<nat>

  datatype Channel = Channel(peer: string, asset: Option<string>)

  datatype AssetError = NoAsset | NotEligible | NotSupported | NotConvertible | NoMetadata | Ambiguous | ChannelsUnknown

  datatype Legs = Legs(inbound: Option<string>, inboundAmount: Option<nat>,
                       outbound: Option<string>, outboundAmount: Option<nat>, converted: bool)

  datatype AssetInfo = AssetInfo(id: string, precision: nat)

  // ---------------------------------------------------------------- pairs

  predicate Eligible(cfg: Config, id: string) {
    id != "" && (id in cfg.supported || id in cfg.convertible)
  }

  predicate Connects(pair: (string, string), a: string, b: string) {
    (pair.0 == a && pair.1 == b) || (pair.0 == b && pair.1 == a)
  }

  predicate IsConvertiblePair(cfg: Config, a: string, b: string) {
    a != "" && b != "" && a != b && exists i :: 0 <= i < |cfg.pairs| && Connects(cfg.pairs[i], a, b)
  }

  function EnsureConvertiblePair(cfg: Config, meta: Metadata, inbound: string, outbound: string): Result<(), AssetError> {
    if !Eligible(cfg, inbound) || !Eligible(cfg, outbound) then Err(NotEligible)
    else if !IsConvertiblePair(cfg, inbound, outbound) then Err(NotConvertible)
    else if meta(inbound) == None || meta(outbound) == None then Err(NoMetadata)
    else if meta(inbound) != meta(outbound) then Err(NotConvertible)
    else Ok(())
  }

  /** The other side of the first `n` pairs the asset is in, each once, in order. */
  function Counterparts(pairs: seq<(string, string)>, id: string, n: nat): seq<string>
    requires n <= |pairs|
  {
    if n == 0 then []
    else
      var before := Counterparts(pairs, id, n - 1);
      var other := if pairs[n - 1].0 == id then pairs[n - 1].1 else pairs[n - 1].0;
      if (pairs[n - 1].0 != id && pairs[n - 1].1 != id) || other == "" || other == id || other in before then before
      else before + [other]
  }

  method ConvertibleCounterparts(cfg: Config, id: string) returns (out: seq<string>)
    ensures out == Counterparts(cfg.pairs, id, |cfg.pairs|)
  {
    out := [];
    for i := 0 to |cfg.pairs|
      invariant out == Counterparts(cfg.pairs, id, i)
    {
      var other: string;
      if cfg.pairs[i].0 == id {
        other := cfg.pairs[i].1;
      } else if cfg.pairs[i].1 == id {
        other := cfg.pairs[i].0;
      } else {
        continue;
      }
      if other != "" && other != id && other !in out {
        out := out + [other];
      }
    }
  }

  ghost predicate DuplicateFree<T>(s: seq<T>) {
    forall i, j :: 0 <= i < j < |s| ==> s[i] != s[j]
  }

  /** The counterparts are exactly the assets declared convertible with this one, each once. */
  lemma {:induction false} CounterpartsAreThePairs(pairs: seq<(string, string)>, id: string, n: nat)
    requires n <= |pairs| && id != ""
    ensures DuplicateFree(Counterparts(pairs, id, n))
    ensures forall x :: x in Counterparts(pairs, id, n) <==>
              x != "" && x != id && exists i :: 0 <= i < n && Connects(pairs[i], x, id)
  {
    if n > 0 {
      CounterpartsAreThePairs(pairs, id, n - 1);
      forall x ensures x in Counterparts(pairs, id, n) <==>
                 x != "" && x != id && exists i :: 0 <= i < n && Connects(pairs[i], x, id)
      {
        assert (exists i :: 0 <= i < n && Connects(pairs[i], x, id))
          <==> (exists i :: 0 <= i < n - 1 && Connects(pairs[i], x, id)) || Connects(pairs[n - 1], x, id);
      }
    }
  }

  // ---------------------------------------------------------------- the payout asset

  /** The eligible assets the peer has channels in. */
  ghost function EligibleAssets(cfg: Config, peer: string, channels: seq<Channel>): set<string> {
    set i | 0 <= i < |channels| && channels[i].peer == peer && channels[i].asset.Some?
            && Eligible(cfg, channels[i].asset.value) :: channels[i].asset.value
  }

  ghost function FirstIn(preference: seq<string>, assets: set<string>): string {
    if preference == [] then ""
    else if preference[0] in assets then preference[0] else FirstIn(preference[1..], assets)
  }

  /** The only asset, or the operator's first preference among several, or nothing. */
  ghost predicate IsPayout(cfg: Config, assets: set<string>, payout: string) {
    && (assets == {} ==> payout == "")
    && (|assets| == 1 ==> assets == {payout})
    && (|assets| > 1 ==> payout == FirstIn(cfg.preference, assets))
  }

  method PayoutAssetFromChannelList(cfg: Config, peer: string, channels: seq<Channel>) returns (payout: string)
    ensures IsPayout(cfg, EligibleAssets(cfg, peer, channels), payout)
  {
    var seen: seq<string> := [];
    for i := 0 to |channels|
      invariant DuplicateFree(seen)
      invariant (set x | x in seen) == EligibleAssets(cfg, peer, channels[..i])
    {
      EligibleStep(cfg, peer, channels, i);
      if channels[i].peer != peer || channels[i].asset == None {
        continue;
      }
      var id := channels[i].asset.value;
      if id == "" || !Eligible(cfg, id) || id in seen {
        continue;
      }
      seen := seen + [id];
    }
    assert channels[..|channels|] == channels;
    ghost var assets := EligibleAssets(cfg, peer, channels);
    CountDistinct(seen);
    if |seen| == 1 {
      assert assets == {seen[0]};
      return seen[0];
    }
    if |seen| == 0 {
      return "";
    }
    for i := 0 to |cfg.preference|
      invariant FirstIn(cfg.preference, assets) == FirstIn(cfg.preference[i..], assets)
    {
      if cfg.preference[i] in seen {
        return cfg.preference[i];
      }
    }
    return "";
  }

  lemma EligibleStep(cfg: Config, peer: string, channels: seq<Channel>, i: nat)
    requires i < |channels|
    ensures EligibleAssets(cfg, peer, channels[..i + 1]) == EligibleAssets(cfg, peer, channels[..i])
              + (if channels[i].peer == peer && channels[i].asset.Some? && Eligible(cfg, channels[i].asset.value)
                 then {channels[i].asset.value} else {})
  {
    var before, after := channels[..i], channels[..i + 1];
    assert after == before + [channels[i]];
    forall x
      ensures x in EligibleAssets(cfg, peer, after) <==>
                (x in EligibleAssets(cfg, peer, before)
                 || (channels[i].peer == peer && channels[i].asset == Some(x) && Eligible(cfg, x)))
    {
      if x in EligibleAssets(cfg, peer, before) {
        var k :| 0 <= k < i && before[k].peer == peer && before[k].asset == Some(x) && Eligible(cfg, x);
        assert after[k] == before[k];
      }
      if channels[i].peer == peer && channels[i].asset == Some(x) && Eligible(cfg, x) {
        assert after[i] == channels[i];
      }
    }
  }

  lemma {:induction false} CountDistinct(s: seq<string>)
    requires DuplicateFree(s)
    ensures |set x | x in s| == |s|
  {
    if s != [] {
      var rest := s[..|s| - 1];
      CountDistinct(rest);
      assert (set x | x in s) == (set x | x in rest) + {s[|s| - 1]};
    }
  }

  lemma {:induction false} FirstInIsMember(preference: seq<string>, assets: set<string>)
    ensures FirstIn(preference, assets) == "" || (FirstIn(preference, assets) in assets && FirstIn(preference, assets) in preference)
    ensures FirstIn(preference, assets) == "" && "" !in assets ==> forall i :: 0 <= i < |preference| ==> preference[i] !in assets
  {
    if preference != [] {
      FirstInIsMember(preference[1..], assets);
      if FirstIn(preference, assets) == "" && "" !in assets {
        forall i | 0 <= i < |preference| ensures preference[i] !in assets {
          assert i > 0 ==> preference[i] == preference[1..][i - 1];
        }
      }
    }
  }

  /** The payout asset is a function of the set of eligible assets, whatever the order and
      repetition of channels; it is one of them, and missing only when there is none or
      several without a preferred one. */
  lemma PayoutIsWellDefined(cfg: Config, peer: string, cs: seq<Channel>, ds: seq<Channel>, p: string, q: string)
    requires EligibleAssets(cfg, peer, cs) == EligibleAssets(cfg, peer, ds)
    requires IsPayout(cfg, EligibleAssets(cfg, peer, cs), p) && IsPayout(cfg, EligibleAssets(cfg, peer, ds), q)
    ensures p == q
    ensures var s := EligibleAssets(cfg, peer, cs);
            && (p == "" <==> s == {} || (|s| > 1 && forall i :: 0 <= i < |cfg.preference| ==> cfg.preference[i] !in s))
            && (p != "" ==> p in s && Eligible(cfg, p))
  {
    var s := EligibleAssets(cfg, peer, cs);
    assert "" !in s;
    if |s| == 0 {
      assert s == {};
    } else {
      FirstInIsMember(cfg.preference, s);
    }
  }
}
