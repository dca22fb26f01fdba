/*
 * Batch resolution (get_all_rates in usdtbot.py): resolve USDT, BTC, ETH
 * and TON in that order and keep each asset whose rate is truthy.
 */
module Batch {
  import opened Rates

  /** The network's answers for every asset. */
  type Network = Asset -> Exchange

  /** The order in which the batch asks for the assets. */
  const Order: seq<Asset> := [USDT, BTC, ETH, TON]

  /** Position of an asset in Order. */
  function Rank(a: Asset): (n: nat)
    ensures n < |Order| && Order[n] == a
  {
    match a
    case USDT => 0
    case BTC => 1
    case ETH => 2
    case TON => 3
  }

  /** The rate get_crypto_rate resolves for one asset of the batch. */
  function RateOf(a: Asset, net: Network): (rate: Option<real>)
  {
    var ex := net(a);
    Resolve(Symbol(a), ex.primary, ex.usdLeg, ex.fxLeg).rate
  }

  /** The entries kept when the given assets are resolved one after another. */
  function Collect(assets: seq<Asset>, net: Network): (kept: seq<(Asset, real)>)
    decreases |assets|
  {
    if assets == [] then []
    else
      var a := assets[|assets| - 1];
      var kept := Collect(assets[..|assets| - 1], net);
      if Truthy(RateOf(a, net)) then kept + [(a, RateOf(a, net).value)] else kept
  }

  /** Strictly increasing by Rank: at most one entry per asset, in batch order. */
  predicate InBatchOrder(assets: seq<Asset>)
  {
    forall i, j :: 0 <= i < j < |assets| ==> Rank(assets[i]) < Rank(assets[j])
  }

  function Keys(rates: seq<(Asset, real)>): (ks: seq<Asset>)
    ensures |ks| == |rates| && forall i :: 0 <= i < |rates| ==> ks[i] == rates[i].0
  {
    if rates == [] then [] else [rates[0].0] + Keys(rates[1..])
  }

  /** get_all_rates: one resolution per asset, in order; a failed asset is skipped and the loop goes on. */
  method GetAllRates(net: Network) returns (rates: seq<(Asset, real)>)
    ensures rates == Collect(Order, net)
  {
    rates := [];
    for i := 0 to |Order|
      invariant rates == Collect(Order[..i], net)
    {
      var a := Order[i];
      var ex := net(a);
      var rate := Resolve(Symbol(a), ex.primary, ex.usdLeg, ex.fxLeg).rate;
      assert Order[..i + 1][..i] == Order[..i];
      if rate.Some? && rate.value != 0.0 {
        rates := rates + [(a, rate.value)];
      }
    }
    assert Order[..|Order|] == Order;
  }

  /** An entry is kept exactly when its asset is asked for and resolves truthy, and it carries that rate. */
  lemma {:induction false} CollectMembers(assets: seq<Asset>, net: Network, a: Asset, v: real)
    ensures (a, v) in Collect(assets, net) <==>
              a in assets && Truthy(RateOf(a, net)) && v == RateOf(a, net).value
    decreases |assets|
  {
    if assets != [] {
      var prefix := assets[..|assets| - 1];
      CollectMembers(prefix, net, a, v);
      assert assets == prefix + [assets[|assets| - 1]];
    }
  }

  /** Every kept entry comes from an asset that was asked for. */
  lemma {:induction false} CollectKeysFrom(assets: seq<Asset>, net: Network)
    ensures forall e :: e in Collect(assets, net) ==> e.0 in assets
    decreases |assets|
  {
    if assets != [] {
      CollectKeysFrom(assets[..|assets| - 1], net);
    }
  }

  /** Resolving assets given in batch order yields entries in batch order. */
  lemma {:induction false} CollectInOrder(assets: seq<Asset>, net: Network)
    requires InBatchOrder(assets)
    ensures InBatchOrder(Keys(Collect(assets, net)))
    decreases |assets|
  {
    if assets != [] {
      var prefix := assets[..|assets| - 1];
      var last := assets[|assets| - 1];
      CollectInOrder(prefix, net);
      CollectKeysFrom(prefix, net);
      var kept := Collect(prefix, net);
      var ks, kk := Keys(Collect(assets, net)), Keys(kept);
      forall i, j | 0 <= i < j < |ks|
        ensures Rank(ks[i]) < Rank(ks[j])
      {
        assert ks[i] == kk[i];
        if j == |kept| {
          assert kept[i] in kept;
          var k :| 0 <= k < |prefix| && prefix[k] == kept[i].0;
        } else {
          assert ks[j] == kk[j];
        }
      }
    }
  }

  /**
   * The batch result: exactly the assets whose rate is truthy, each with
   * its own rate, in the order USDT, BTC, ETH, TON.
   */
  lemma AllRatesExactly(net: Network)
    ensures forall a, v :: (a, v) in Collect(Order, net) <==> Truthy(RateOf(a, net)) && v == RateOf(a, net).value
    ensures InBatchOrder(Keys(Collect(Order, net)))
  {
    forall a, v
      ensures (a, v) in Collect(Order, net) <==> Truthy(RateOf(a, net)) && v == RateOf(a, net).value
    {
      CollectMembers(Order, net, a, v);
      assert Order[Rank(a)] == a;
    }
    CollectInOrder(Order, net);
  }

  /** What other assets' feeds answer never changes whether, or with which rate, an asset is included. */
  lemma OtherFailuresDoNotMatter(net1: Network, net2: Network, a: Asset, v: real)
    requires net1(a) == net2(a)
    ensures (a, v) in Collect(Order, net1) <==> (a, v) in Collect(Order, net2)
  {
    AllRatesExactly(net1);
    AllRatesExactly(net2);
  }

  /** With every BTC request failing and the others answering directly, the batch holds USDT, ETH and TON. */
  lemma BitcoinOutage(net: Network)
    requires net(BTC) == Exchange(TransportError, TransportError, TransportError)
    requires net(USDT).primary == Decoded(Number(450.0))
    requires net(ETH).primary == Decoded(Number(1500000.0))
    requires net(TON).primary == Decoded(Number(2500.0))
    ensures Keys(Collect(Order, net)) == [USDT, ETH, TON]
  {
    assert Order[..1][..0] == [] && Order[..2][..1] == Order[..1];
    assert Order[..3][..2] == Order[..2] && Order[..|Order|][..3] == Order[..3];
    assert Collect(Order[..1], net) == [(USDT, 450.0)];
    assert Collect(Order[..2], net) == [(USDT, 450.0)];
    assert Collect(Order[..3], net) == [(USDT, 450.0), (ETH, 1500000.0)];
    assert Order[..|Order|] == Order;
    assert Collect(Order, net) == [(USDT, 450.0), (ETH, 1500000.0), (TON, 2500.0)];
  }
}
