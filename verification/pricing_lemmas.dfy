/**
 * Properties of the pricing rules: the oracle's two-tier fallback, the
 * "most liquid anchor wins, earliest on ties" rule of the whitelist scan,
 * and the relation between tracked volume and tracked liquidity.
 */
module PricingLemmas {

  import opened Optional
  import opened Schema
  import opened Pricing

  // ---------------------------------------------------------------------
  // EOS price in USD
  // ---------------------------------------------------------------------

  /** The primary pool wins, the legacy pool is the fallback, and 0 the last resort. */
  lemma EosPriceFallback(pairs: map<string, Pair>)
    ensures EosUsdtWeosPair in pairs ==> GetEosPriceInUSD(pairs) == pairs[EosUsdtWeosPair].token0Price
    ensures EosUsdtWeosPair !in pairs && MultichainUsdtWeosPair in pairs ==>
      GetEosPriceInUSD(pairs) == pairs[MultichainUsdtWeosPair].token1Price
    ensures EosUsdtWeosPair !in pairs && MultichainUsdtWeosPair !in pairs ==> GetEosPriceInUSD(pairs) == 0.0
  {
  }

  /** No pool other than the two designated ones influences the price. */
  lemma EosPriceReadsOnlyAnchorPools(pairs: map<string, Pair>, pairs': map<string, Pair>)
    requires EosUsdtWeosPair in pairs <==> EosUsdtWeosPair in pairs'
    requires EosUsdtWeosPair in pairs ==> pairs[EosUsdtWeosPair] == pairs'[EosUsdtWeosPair]
    requires MultichainUsdtWeosPair in pairs <==> MultichainUsdtWeosPair in pairs'
    requires MultichainUsdtWeosPair in pairs ==> pairs[MultichainUsdtWeosPair] == pairs'[MultichainUsdtWeosPair]
    ensures GetEosPriceInUSD(pairs) == GetEosPriceInUSD(pairs')
  {
  }

  // ---------------------------------------------------------------------
  // The whitelist scan
  // ---------------------------------------------------------------------

  /** At most one position is the earliest most liquid candidate. */
  lemma EarliestMostLiquidIsUnique(cs: seq<Option<Candidate>>, k1: int, k2: int)
    requires IsEarliestMostLiquid(cs, k1) && IsEarliestMostLiquid(cs, k2)
    ensures k1 == k2
  {
  }

  /**
   * The pool holding the most EOS above the floor prices the token; among
   * equally liquid pools, the earliest whitelist entry's pool does.
   */
  lemma MostLiquidAnchorWins(s: Store, f: Factory, token: Token, k: int)
    requires token.id != WeosAddress && ScanLoadable(s, f, token.id, Whitelist)
    requires IsEarliestMostLiquid(Candidates(s, f, token.id, Whitelist), k)
    ensures FindEosPerToken(s, f, token) == Candidates(s, f, token.id, Whitelist)[k].value.price
  {
    var cs := Candidates(s, f, token.id, Whitelist);
    assert !NoneAboveFloor(cs) by {
      assert cs[k].Some? && cs[k].value.reserveEOS > MinimumLiquidityThresholdEos;
    }
    var k' :| IsEarliestMostLiquid(cs, k') && FindEosPerToken(s, f, token) == cs[k'].value.price;
    EarliestMostLiquidIsUnique(cs, k, k');
  }

  /** Of two equally liquid candidates the later one never wins. */
  lemma TieGoesToEarliest(cs: seq<Option<Candidate>>, i: int, j: int)
    requires 0 <= i < j < |cs| && cs[i].Some? && cs[j].Some?
    requires cs[i].value.reserveEOS == cs[j].value.reserveEOS
    ensures !IsEarliestMostLiquid(cs, j)
  {
  }

  /** A strictly less liquid candidate never wins, wherever it stands. */
  lemma LessLiquidNeverWins(cs: seq<Option<Candidate>>, i: int, j: int)
    requires 0 <= i < |cs| && 0 <= j < |cs| && cs[i].Some? && cs[j].Some?
    requires cs[i].value.reserveEOS < cs[j].value.reserveEOS
    ensures !IsEarliestMostLiquid(cs, i)
  {
  }

  /** A token the factory pairs with no anchor is priced at 0. */
  lemma UnanchoredTokenPricedAtZero(s: Store, f: Factory, token: Token)
    requires token.id != WeosAddress
    requires forall i :: 0 <= i < |Whitelist| ==> f(token.id, Whitelist[i]) == None
    ensures FindEosPerToken(s, f, token) == 0.0
  {
    assert ScanLoadable(s, f, token.id, Whitelist);
    assert NoneAboveFloor(Candidates(s, f, token.id, Whitelist));
  }

  /** WEOS is priced at 1 whatever the store and the factory hold. */
  lemma WeosPricedAtOneInEveryStore(s: Store, f: Factory, s': Store, f': Factory, token: Token)
    requires token.id == WeosAddress
    ensures FindEosPerToken(s, f, token) == FindEosPerToken(s', f', token) == 1.0
  {
  }

  /**
   * The loads demanded are exactly those the loop makes: a pool less liquid
   * than one already seen is never read past its reserve, so its
   * counterpart token may be missing from the store.
   */
  lemma LessLiquidPoolNeedsNoCounterpart()
    ensures
      var target := "0xtarget";
      var rich := Pair("0xrich", target, Whitelist[0], 1.0, 1.0, 1.0, 2.0, 0.5, 1);
      var poor := Pair("0xpoor", target, Whitelist[1], 1.0, 1.0, 0.5, 2.0, 0.5, 1);
      var s := Store(map["0xrich" := rich, "0xpoor" := poor], map[Whitelist[0] := Token(Whitelist[0], 3.0)]);
      var f: Factory := (a: string, b: string) =>
        if b == Whitelist[0] then Some("0xrich") else if b == Whitelist[1] then Some("0xpoor") else None;
      && Whitelist[1] !in s.tokens
      && ScanLoadable(s, f, target, Whitelist)
      && FindEosPerToken(s, f, Token(target, 0.0)) == 1.5
  {
    var target := "0xtarget";
    var rich := Pair("0xrich", target, Whitelist[0], 1.0, 1.0, 1.0, 2.0, 0.5, 1);
    var poor := Pair("0xpoor", target, Whitelist[1], 1.0, 1.0, 0.5, 2.0, 0.5, 1);
    var s := Store(map["0xrich" := rich, "0xpoor" := poor], map[Whitelist[0] := Token(Whitelist[0], 3.0)]);
    var f: Factory := (a: string, b: string) =>
      if b == Whitelist[0] then Some("0xrich") else if b == Whitelist[1] then Some("0xpoor") else None;
    var cs := Candidates(s, f, target, Whitelist);
    assert Best(cs[..1]) == Estimate(1.5, 1.0);
    assert ScanLoadable(s, f, target, Whitelist);
    MostLiquidAnchorWins(s, f, Token(target, 0.0), 0);
  }

  /** A pool with the target on neither side leaves the estimate unchanged. */
  lemma ForeignPoolIsSkipped(s: Store, f: Factory, tokenId: string, e: Estimate, w: string)
    requires f(tokenId, w).Some? && f(tokenId, w).value in s.pairs
    requires s.pairs[f(tokenId, w).value].token0 != tokenId
    requires s.pairs[f(tokenId, w).value].token1 != tokenId
    ensures Step(s, f, tokenId, e, w) == e
  {
  }

  // ---------------------------------------------------------------------
  // Tracked volume and liquidity
  // ---------------------------------------------------------------------

  /**
   * Reference definition: the mean USD value of the whitelisted legs, 0
   * when no leg is whitelisted.
   */
  function TrustedMeanUSD(bundle: Bundle, amount0: real, token0: Token, amount1: real, token1: Token): real
  {
    var count := (if Whitelisted(token0.id) then 1 else 0) + (if Whitelisted(token1.id) then 1 else 0);
    var total := (if Whitelisted(token0.id) then LegUSD(bundle, amount0, token0) else 0.0)
               + (if Whitelisted(token1.id) then LegUSD(bundle, amount1, token1) else 0.0);
    if count == 0 then 0.0 else total / count as real
  }

  /** Tracked liquidity extrapolates the trusted legs to the whole pool: twice their mean. */
  lemma LiquidityIsTwiceTrustedMean(bundle: Bundle, amount0: real, token0: Token, amount1: real, token1: Token)
    ensures TrackedLiquidityUSD(bundle, amount0, token0, amount1, token1)
      == 2.0 * TrustedMeanUSD(bundle, amount0, token0, amount1, token1)
  {
  }

  /**
   * Tracked volume is 0 on a denylisted pool, 0 on a thin pool whose
   * reserves' tracked liquidity is under the USD threshold, and otherwise
   * half the tracked liquidity of the swapped amounts.
   */
  lemma VolumeIsHalfLiquidityUnlessGated(untrackedPairs: set<string>, bundle: Bundle,
                                        amount0: real, token0: Token, amount1: real, token1: Token, pair: Pair)
    ensures TrackedVolumeUSD(untrackedPairs, bundle, amount0, token0, amount1, token1, pair) ==
      if pair.id in untrackedPairs then 0.0
      else if pair.liquidityProviderCount < ThinPoolProviderCount &&
              TrackedLiquidityUSD(bundle, pair.reserve0, token0, pair.reserve1, token1) < MinimumUsdThresholdNewPairs
      then 0.0
      else TrackedLiquidityUSD(bundle, amount0, token0, amount1, token1) / 2.0
  {
  }

  /** Pools with five or more providers skip the gate: volume is the trusted mean. */
  lemma WellProvidedPoolsSkipGate(untrackedPairs: set<string>, bundle: Bundle,
                                  amount0: real, token0: Token, amount1: real, token1: Token, pair: Pair)
    requires pair.id !in untrackedPairs && pair.liquidityProviderCount >= ThinPoolProviderCount
    ensures TrackedVolumeUSD(untrackedPairs, bundle, amount0, token0, amount1, token1, pair)
      == TrustedMeanUSD(bundle, amount0, token0, amount1, token1)
  {
  }

  /**
   * The thin-pool gate per whitelist case; it is strict, so reserves worth
   * exactly the threshold pass.
   */
  lemma ThinPoolGate(untrackedPairs: set<string>, bundle: Bundle,
                     amount0: real, token0: Token, amount1: real, token1: Token, pair: Pair)
    requires pair.id !in untrackedPairs && pair.liquidityProviderCount < ThinPoolProviderCount
    ensures Whitelisted(token0.id) && Whitelisted(token1.id) ==>
      (TrackedVolumeUSD(untrackedPairs, bundle, amount0, token0, amount1, token1, pair) ==
        if LegUSD(bundle, pair.reserve0, token0) + LegUSD(bundle, pair.reserve1, token1) < 100.0 then 0.0
        else (LegUSD(bundle, amount0, token0) + LegUSD(bundle, amount1, token1)) / 2.0)
    ensures Whitelisted(token0.id) && !Whitelisted(token1.id) ==>
      (TrackedVolumeUSD(untrackedPairs, bundle, amount0, token0, amount1, token1, pair) ==
        if 2.0 * LegUSD(bundle, pair.reserve0, token0) < 100.0 then 0.0 else LegUSD(bundle, amount0, token0))
    ensures !Whitelisted(token0.id) && Whitelisted(token1.id) ==>
      (TrackedVolumeUSD(untrackedPairs, bundle, amount0, token0, amount1, token1, pair) ==
        if 2.0 * LegUSD(bundle, pair.reserve1, token1) < 100.0 then 0.0 else LegUSD(bundle, amount1, token1))
  {
  }

  /** Swapping the two sides of a pool changes neither tracked liquidity nor tracked volume. */
  lemma TrackingIgnoresSideOrder(untrackedPairs: set<string>, bundle: Bundle,
                                 amount0: real, token0: Token, amount1: real, token1: Token, pair: Pair)
    ensures TrackedLiquidityUSD(bundle, amount0, token0, amount1, token1)
      == TrackedLiquidityUSD(bundle, amount1, token1, amount0, token0)
    ensures TrackedVolumeUSD(untrackedPairs, bundle, amount0, token0, amount1, token1, pair)
      == TrackedVolumeUSD(untrackedPairs, bundle, amount1, token1, amount0, token0,
                          pair.(reserve0 := pair.reserve1, reserve1 := pair.reserve0))
  {
  }

  /** With non-negative inputs, tracked volume lies between 0 and tracked liquidity. */
  lemma VolumeBoundedByLiquidity(untrackedPairs: set<string>, bundle: Bundle,
                                 amount0: real, token0: Token, amount1: real, token1: Token, pair: Pair)
    requires amount0 >= 0.0 && amount1 >= 0.0 && bundle.eosPrice >= 0.0
    requires token0.derivedEOS >= 0.0 && token1.derivedEOS >= 0.0
    ensures 0.0 <= TrackedVolumeUSD(untrackedPairs, bundle, amount0, token0, amount1, token1, pair)
      <= TrackedLiquidityUSD(bundle, amount0, token0, amount1, token1)
  {
    VolumeIsHalfLiquidityUnlessGated(untrackedPairs, bundle, amount0, token0, amount1, token1, pair);
  }

  /**
   * Worked cases: a thin pool of two anchors worth $99 tracks nothing and
   * one worth $100 tracks the mean; 10 units of an anchor at $2 beside an
   * unlisted token are $40 of liquidity.
   */
  lemma WorkedExamples()
    ensures
      var usdt := Token(Whitelist[0], 1.0);
      var usdc := Token(Whitelist[3], 1.0);
      var bundle := Bundle(1.0);
      var thin := Pair("0xpool", usdt.id, usdc.id, 49.0, 50.0, 1.0, 1.0, 1.0, 3);
      && TrackedVolumeUSD({}, bundle, 10.0, usdt, 20.0, usdc, thin) == 0.0
      && TrackedVolumeUSD({}, bundle, 10.0, usdt, 20.0, usdc, thin.(reserve1 := 51.0)) == 15.0
    ensures TrackedLiquidityUSD(Bundle(1.0), 10.0, Token(Whitelist[0], 2.0), 5.0, Token("0xunlisted", 7.0)) == 40.0
  {
    assert !Whitelisted("0xunlisted");
  }

}
