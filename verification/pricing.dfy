/**
 * The pricing rules of the subgraph's mappings: the EOS/USD oracle, the
 * whitelist scan that prices a token in EOS, and the rules deciding how
 * much swap volume and pool liquidity counts as tracked USD.
 *
 * Store reads become a `Store` snapshot, the factory's `getPair` a
 * `Factory` function and `Bundle.load('1')` a `Bundle` value. Where the
 * source dereferences a load without a null check, the model requires the
 * record to be present.
 */
module Pricing {

  import opened Optional
  import opened Schema

  const WeosAddress: string := "0xc00592aa41d32d137dc480d9f6d0df19b860104f"
  /** The USDT(EOS)/WEOS pool; USDT is its token0. */
  const EosUsdtWeosPair: string := "0xc7df4c6e2343162a46c159932298a4b88fb85d96"
  /** The older USDT(Multichain)/WEOS pool; WEOS is its token1. */
  const MultichainUsdtWeosPair: string := "0x90212ee7d342d280f519035e693168782215fa73"

  /** Anchor tokens, in scan order: USDT (EOS), USDT (Multichain), WEOS, USDC. */
  const Whitelist: seq<string> := [
    "0x33b57dc70014fd7aa6e1ed3080eed2b619632b8e",
    "0xfa9343c3897324496a05fc75abed6bac29f8a40f",
    "0xc00592aa41d32d137dc480d9f6d0df19b860104f",
    "0x765277eebeca2e31912c9946eae1021199b39c61"
  ]

  /** Minimum USD liquidity for a pool with few providers to count volume. */
  const MinimumUsdThresholdNewPairs: real := 100.0
  /** A pool must hold strictly more EOS than this to price a token. */
  const MinimumLiquidityThresholdEos: real := 0.1
  /** Pools with fewer liquidity providers than this are thin. */
  const ThinPoolProviderCount: int := 5

  // ---------------------------------------------------------------------
  // EOS price in USD
  // ---------------------------------------------------------------------

  /** Primary pool's token0 price, else the legacy pool's token1 price, else 0. */
  function GetEosPriceInUSD(pairs: map<string, Pair>): (r: real)
    ensures r != 0.0 ==> EosUsdtWeosPair in pairs || MultichainUsdtWeosPair in pairs
  {
    if EosUsdtWeosPair in pairs then pairs[EosUsdtWeosPair].token0Price
    else if MultichainUsdtWeosPair in pairs then pairs[MultichainUsdtWeosPair].token1Price
    else 0.0
  }

  // ---------------------------------------------------------------------
  // EOS price of a token: the whitelist scan
  // ---------------------------------------------------------------------

  /** The scan's running state: `price` and `lastPairReserveEOS`. */
  datatype Estimate = Estimate(price: real, lastPairReserveEOS: real)

  /** The state before the first whitelist entry: price 0, reserve at the floor. */
  const Start: Estimate := Estimate(0.0, MinimumLiquidityThresholdEos)

  /** What one anchor pool offers: its EOS reserve and the price it implies. */
  datatype Candidate = Candidate(reserveEOS: real, price: real)

  function DerivedEOS(s: Store, id: string): real
  {
    if id in s.tokens then s.tokens[id].derivedEOS else 0.0
  }

  /**
   * The candidate the pool between `tokenId` and anchor `w` offers, read on
   * the side where `tokenId` sits; None when the factory knows no such pool
   * or `tokenId` is on neither side of it.
   */
  function CandidateOf(s: Store, f: Factory, tokenId: string, w: string): Option<Candidate>
  {
    match f(tokenId, w)
    case None => None
    case Some(a) =>
      if a !in s.pairs then None
      else
        var pair := s.pairs[a];
        if pair.token0 == tokenId then
          Some(Candidate(pair.reserveEOS, pair.token1Price * DerivedEOS(s, pair.token1)))
        else if pair.token1 == tokenId then
          Some(Candidate(pair.reserveEOS, pair.token0Price * DerivedEOS(s, pair.token0)))
        else None
  }

  /** A candidate replaces the estimate only when strictly more liquid. */
  function Advance(e: Estimate, c: Option<Candidate>): Estimate
  {
    if c.Some? && c.value.reserveEOS > e.lastPairReserveEOS then
      Estimate(c.value.price, c.value.reserveEOS)
    else e
  }

  /**
   * The scan's state after the candidates `cs`, computed without any store
   * read: each candidate is taken only when strictly more liquid.
   */
  function Best(cs: seq<Option<Candidate>>): Estimate
    decreases |cs|
  {
    if |cs| == 0 then Start
    else Advance(Best(cs[..|cs| - 1]), cs[|cs| - 1])
  }

  /** The candidates of the whitelist entries `wl`, position by position. */
  function Candidates(s: Store, f: Factory, tokenId: string, wl: seq<string>): seq<Option<Candidate>>
  {
    seq(|wl|, j requires 0 <= j < |wl| => CandidateOf(s, f, tokenId, wl[j]))
  }

  /**
   * The loads of one scan step succeed: the pool the factory names is in the
   * store, and the counterpart token is in the store whenever the step
   * reads it (target on that side, reserve above the best so far, `bar`).
   */
  predicate Loadable(s: Store, f: Factory, tokenId: string, w: string, bar: real)
  {
    match f(tokenId, w)
    case None => true
    case Some(a) =>
      && a in s.pairs
      && (s.pairs[a].token0 == tokenId && s.pairs[a].reserveEOS > bar ==> s.pairs[a].token1 in s.tokens)
      && (s.pairs[a].token1 == tokenId && s.pairs[a].reserveEOS > bar ==> s.pairs[a].token0 in s.tokens)
  }

  /**
   * Every load of the scan over `wl` succeeds: entry `i` is loadable at the
   * best reserve the entries before it leave behind.
   */
  predicate ScanLoadable(s: Store, f: Factory, tokenId: string, wl: seq<string>)
  {
    forall i :: 0 <= i < |wl| ==>
      Loadable(s, f, tokenId, wl[i], Best(Candidates(s, f, tokenId, wl[..i])).lastPairReserveEOS)
  }

  /** A scan whose loads succeed has loads that succeed on every prefix. */
  lemma ScanLoadablePrefix(s: Store, f: Factory, tokenId: string, wl: seq<string>, n: int)
    requires ScanLoadable(s, f, tokenId, wl) && 0 <= n <= |wl|
    ensures ScanLoadable(s, f, tokenId, wl[..n])
  {
    forall i | 0 <= i < n
      ensures Loadable(s, f, tokenId, wl[..n][i], Best(Candidates(s, f, tokenId, wl[..n][..i])).lastPairReserveEOS)
    {
      assert wl[..n][..i] == wl[..i];
    }
  }

  /**
   * One iteration of the loop over the whitelist, with the source's two
   * sequential tests: target as token0, then target as token1.
   */
  function Step(s: Store, f: Factory, tokenId: string, e: Estimate, w: string): (r: Estimate)
    requires Loadable(s, f, tokenId, w, e.lastPairReserveEOS)
    ensures r == Advance(e, CandidateOf(s, f, tokenId, w))
    ensures r.lastPairReserveEOS >= e.lastPairReserveEOS
  {
    match f(tokenId, w)
    case None => e
    case Some(a) =>
      var pair := s.pairs[a];
      var e' :=
        if pair.token0 == tokenId && pair.reserveEOS > e.lastPairReserveEOS then
          Estimate(pair.token1Price * s.tokens[pair.token1].derivedEOS, pair.reserveEOS)
        else e;
      if pair.token1 == tokenId && pair.reserveEOS > e'.lastPairReserveEOS then
        Estimate(pair.token0Price * s.tokens[pair.token0].derivedEOS, pair.reserveEOS)
      else e'
  }

  /**
   * The loop run over the entries of `wl` in order, from `Start`; it ends
   * where the store-free fold over the entries' candidates ends.
   */
  function Scan(s: Store, f: Factory, tokenId: string, wl: seq<string>): (r: Estimate)
    requires ScanLoadable(s, f, tokenId, wl)
    ensures r == Best(Candidates(s, f, tokenId, wl))
    ensures r.lastPairReserveEOS >= MinimumLiquidityThresholdEos
    decreases |wl|
  {
    if |wl| == 0 then Start
    else
      var n := |wl| - 1;
      ScanLoadablePrefix(s, f, tokenId, wl, n);
      assert Candidates(s, f, tokenId, wl)[..n] == Candidates(s, f, tokenId, wl[..n]);
      var e := Scan(s, f, tokenId, wl[..n]);
      Step(s, f, tokenId, e, wl[n])
  }

  /** The best reserve never decreases as the scan proceeds. */
  lemma {:induction false} BestNeverDecreases(cs: seq<Option<Candidate>>, i: int, j: int)
    requires 0 <= i <= j <= |cs|
    ensures Best(cs[..i]).lastPairReserveEOS <= Best(cs[..j]).lastPairReserveEOS
    decreases j
  {
    if i < j {
      BestNeverDecreases(cs, i, j - 1);
      assert cs[..j][..j - 1] == cs[..j - 1];
    }
  }

  /** No candidate holds more EOS than the floor. */
  ghost predicate NoneAboveFloor(cs: seq<Option<Candidate>>)
  {
    forall j :: 0 <= j < |cs| && cs[j].Some? ==> cs[j].value.reserveEOS <= MinimumLiquidityThresholdEos
  }

  /**
   * Candidate `k` has the largest EOS reserve of all, that reserve is above
   * the floor, and every earlier candidate holds strictly less.
   */
  ghost predicate IsEarliestMostLiquid(cs: seq<Option<Candidate>>, k: int)
  {
    && 0 <= k < |cs|
    && cs[k].Some?
    && cs[k].value.reserveEOS > MinimumLiquidityThresholdEos
    && (forall j :: 0 <= j < |cs| && cs[j].Some? ==> cs[j].value.reserveEOS <= cs[k].value.reserveEOS)
    && (forall j :: 0 <= j < k && cs[j].Some? ==> cs[j].value.reserveEOS < cs[k].value.reserveEOS)
  }

  /**
   * `e` is what a scan over `cs` should end in: the reserve and price of the
   * earliest most liquid candidate above the floor, or `Start` when none is.
   */
  ghost predicate Selects(cs: seq<Option<Candidate>>, e: Estimate)
  {
    && e.lastPairReserveEOS >= MinimumLiquidityThresholdEos
    && (forall j :: 0 <= j < |cs| && cs[j].Some? ==> cs[j].value.reserveEOS <= e.lastPairReserveEOS)
    && (e.lastPairReserveEOS == MinimumLiquidityThresholdEos ==> e == Start)
    && (e.lastPairReserveEOS > MinimumLiquidityThresholdEos ==>
          exists k :: IsEarliestMostLiquid(cs, k) && cs[k] == Some(Candidate(e.lastPairReserveEOS, e.price)))
  }

  /** One more candidate, taken only when strictly more liquid, keeps `Selects`. */
  lemma AdvanceSelects(cs: seq<Option<Candidate>>, e: Estimate, c: Option<Candidate>)
    requires Selects(cs, e)
    ensures Selects(cs + [c], Advance(e, c))
  {
    var cs' := cs + [c];
    var r := Advance(e, c);
    assert forall j :: 0 <= j < |cs| ==> cs'[j] == cs[j];
    if c.Some? && c.value.reserveEOS > e.lastPairReserveEOS {
      assert IsEarliestMostLiquid(cs', |cs|);
    } else if r.lastPairReserveEOS > MinimumLiquidityThresholdEos {
      var k :| IsEarliestMostLiquid(cs, k) && cs[k] == Some(Candidate(e.lastPairReserveEOS, e.price));
      assert IsEarliestMostLiquid(cs', k);
    }
  }

  /** The fold over any candidates ends in what `Selects` demands of them. */
  lemma {:induction false} BestSelectsEarliestMostLiquid(cs: seq<Option<Candidate>>)
    ensures Selects(cs, Best(cs))
    decreases |cs|
  {
    if |cs| > 0 {
      var n := |cs| - 1;
      BestSelectsEarliestMostLiquid(cs[..n]);
      AdvanceSelects(cs[..n], Best(cs[..n]), cs[n]);
      assert cs[..n] + [cs[n]] == cs;
    }
  }

  /**
   * The EOS price of `token`: exactly 1 for WEOS; otherwise the price
   * implied by the earliest most liquid whitelisted pool above the floor,
   * or 0 when no whitelisted pool is above it.
   */
  function FindEosPerToken(s: Store, f: Factory, token: Token): (r: real)
    requires token.id == WeosAddress || ScanLoadable(s, f, token.id, Whitelist)
    ensures token.id == WeosAddress ==> r == 1.0
    ensures token.id != WeosAddress && NoneAboveFloor(Candidates(s, f, token.id, Whitelist)) ==> r == 0.0
    ensures token.id != WeosAddress && !NoneAboveFloor(Candidates(s, f, token.id, Whitelist)) ==>
      exists k :: IsEarliestMostLiquid(Candidates(s, f, token.id, Whitelist), k) &&
        r == Candidates(s, f, token.id, Whitelist)[k].value.price
  {
    if token.id == WeosAddress then 1.0
    else
      BestSelectsEarliestMostLiquid(Candidates(s, f, token.id, Whitelist));
      Scan(s, f, token.id, Whitelist).price
  }

  /**
   * The source's `for` loop over the whitelist with its two mutable
   * variables, run over the anchors `wl`: `lastPairReserveEOS` stays at or
   * above the floor and never decreases.
   */
  method ScanLoop(s: Store, f: Factory, tokenId: string, wl: seq<string>) returns (price: real)
    requires ScanLoadable(s, f, tokenId, wl)
    ensures price == Scan(s, f, tokenId, wl).price
  {
    ghost var cs := Candidates(s, f, tokenId, wl);
    price := 0.0;
    var lastPairReserveEOS := MinimumLiquidityThresholdEos;
    var i := 0;
    while i < |wl|
      invariant 0 <= i <= |wl|
      invariant lastPairReserveEOS >= MinimumLiquidityThresholdEos
      invariant Estimate(price, lastPairReserveEOS) == Best(cs[..i])
      invariant forall k :: 0 <= k <= i ==> Best(cs[..k]).lastPairReserveEOS <= lastPairReserveEOS
    {
      assert cs[..i] == Candidates(s, f, tokenId, wl[..i]);
      ghost var before := Estimate(price, lastPairReserveEOS);
      assert Loadable(s, f, tokenId, wl[i], lastPairReserveEOS);
      var pairAddress := f(tokenId, wl[i]);
      if pairAddress.Some? {
        var pair := s.pairs[pairAddress.value];
        if pair.token0 == tokenId && pair.reserveEOS > lastPairReserveEOS {
          var token1 := s.tokens[pair.token1];
          lastPairReserveEOS := pair.reserveEOS;
          price := pair.token1Price * token1.derivedEOS;
        }
        if pair.token1 == tokenId && pair.reserveEOS > lastPairReserveEOS {
          var token0 := s.tokens[pair.token0];
          lastPairReserveEOS := pair.reserveEOS;
          price := pair.token0Price * token0.derivedEOS;
        }
      }
      assert Estimate(price, lastPairReserveEOS) == Step(s, f, tokenId, before, wl[i]);
      assert cs[..i + 1][..i] == cs[..i];
      i := i + 1;
    }
    assert cs[..i] == cs;
  }

  /** `findEosPerToken` with its loop: the early return for WEOS, then the scan. */
  method FindEosPerTokenLoop(s: Store, f: Factory, token: Token) returns (price: real)
    requires token.id == WeosAddress || ScanLoadable(s, f, token.id, Whitelist)
    ensures price == FindEosPerToken(s, f, token)
  {
    if token.id == WeosAddress {
      return 1.0;
    }
    price := ScanLoop(s, f, token.id, Whitelist);
  }

  // ---------------------------------------------------------------------
  // Tracked volume and liquidity
  // ---------------------------------------------------------------------

  predicate Whitelisted(id: string)
  {
    id in Whitelist
  }

  /** USD value of `amount` of `token` at the bundle's EOS price. */
  function LegUSD(bundle: Bundle, amount: real, token: Token): real
  {
    amount * (token.derivedEOS * bundle.eosPrice)
  }

  /**
   * The thin-pool gate's rejection: the whitelisted side of the reserves,
   * extrapolated to the whole pool, is worth less than the USD threshold.
   * Neither side whitelisted is not rejected here.
   */
  predicate ThinPoolRejects(bundle: Bundle, token0: Token, token1: Token, pair: Pair)
  {
    var reserve0USD := LegUSD(bundle, pair.reserve0, token0);
    var reserve1USD := LegUSD(bundle, pair.reserve1, token1);
    || (Whitelisted(token0.id) && Whitelisted(token1.id) && reserve0USD + reserve1USD < MinimumUsdThresholdNewPairs)
    || (Whitelisted(token0.id) && !Whitelisted(token1.id) && reserve0USD * 2.0 < MinimumUsdThresholdNewPairs)
    || (!Whitelisted(token0.id) && Whitelisted(token1.id) && reserve1USD * 2.0 < MinimumUsdThresholdNewPairs)
  }

  /**
   * Tracked USD volume of a swap: 0 on denylisted pools and on thin pools
   * the gate rejects; otherwise the mean of the whitelisted legs' values.
   */
  function TrackedVolumeUSD(untrackedPairs: set<string>, bundle: Bundle,
                            tokenAmount0: real, token0: Token, tokenAmount1: real, token1: Token,
                            pair: Pair): (r: real)
    ensures pair.id in untrackedPairs ==> r == 0.0
    ensures !Whitelisted(token0.id) && !Whitelisted(token1.id) ==> r == 0.0
  {
    if pair.id in untrackedPairs then 0.0
    else if pair.liquidityProviderCount < ThinPoolProviderCount && ThinPoolRejects(bundle, token0, token1, pair) then 0.0
    else if Whitelisted(token0.id) && Whitelisted(token1.id) then
      (LegUSD(bundle, tokenAmount0, token0) + LegUSD(bundle, tokenAmount1, token1)) / 2.0
    else if Whitelisted(token0.id) && !Whitelisted(token1.id) then LegUSD(bundle, tokenAmount0, token0)
    else if !Whitelisted(token0.id) && Whitelisted(token1.id) then LegUSD(bundle, tokenAmount1, token1)
    else 0.0
  }

  /**
   * Tracked USD liquidity of a pool: the sum of both legs when both are
   * whitelisted, twice the whitelisted leg when one is, 0 when neither.
   */
  function TrackedLiquidityUSD(bundle: Bundle, tokenAmount0: real, token0: Token,
                               tokenAmount1: real, token1: Token): (r: real)
    ensures !Whitelisted(token0.id) && !Whitelisted(token1.id) ==> r == 0.0
    ensures (tokenAmount0 >= 0.0 && tokenAmount1 >= 0.0 && token0.derivedEOS >= 0.0 &&
             token1.derivedEOS >= 0.0 && bundle.eosPrice >= 0.0) ==> r >= 0.0
  {
    if Whitelisted(token0.id) && Whitelisted(token1.id) then
      LegUSD(bundle, tokenAmount0, token0) + LegUSD(bundle, tokenAmount1, token1)
    else if Whitelisted(token0.id) && !Whitelisted(token1.id) then LegUSD(bundle, tokenAmount0, token0) * 2.0
    else if !Whitelisted(token0.id) && Whitelisted(token1.id) then LegUSD(bundle, tokenAmount1, token1) * 2.0
    else 0.0
  }

}
